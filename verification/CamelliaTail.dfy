/** camellia_setup_tail: kw2 and kw4 are pushed through the rounds and layers into other
    subkeys, the keys move to the end of F, and the last half of P is undone on them. */
module CamelliaTail {
  import opened Words
  import opened CamelliaCipher
  import opened CamelliaRounds

  // ----- what the two whitening keys have become after g layers

  function Kw2At(k: seq<Half>, g: nat): Half
    requires 8 * g + 1 < |k|
  {
    if g == 0 then k[1] else DiffInv(Kw2At(k, g - 1), k[8 * g + 1])
  }

  /** kw4 on its way back from the last group of rounds to group g. */
  function Kw4At(k: seq<Half>, max: nat, g: nat): Half
    requires max % 8 == 0 && 8 * g < max && |k| == max + 2
    decreases max - g
  {
    if 8 * g + 8 == max then k[max + 1] else DiffInv(Kw4At(k, max, g + 1), k[8 * g + 8])
  }

  // ----- the subkeys once both whitening keys are absorbed

  /** Entry j with kw2 absorbed in the groups below g: the even rounds carry it. */
  function With2(k: seq<Half>, g: nat, j: nat): Half
    requires j < |k| && 8 * g <= |k|
  {
    if g == 0 then k[j]
    else if j == 8 * g - 5 || j == 8 * g - 3 || j == 8 * g - 1 then Xor(k[j], Kw2At(k, g - 1))
    else With2(k, g - 1, j)
  }

  /** Entry j with kw4 absorbed in the groups from g on: the odd rounds carry it. */
  function With4(k: seq<Half>, max: nat, g: nat, j: nat): Half
    requires max % 8 == 0 && j <= max && |k| == max + 2
    decreases max - g
  {
    if 8 * g >= max then k[j]
    else if j == 8 * g + 2 || j == 8 * g + 4 || j == 8 * g + 6 then Xor(k[j], Kw4At(k, max, g))
    else With4(k, max, g + 1, j)
  }

  lemma {:induction false} With2Is(k: seq<Half>, g: nat, j: nat)
    requires j < |k| && 8 * g <= |k|
    ensures With2(k, g, j) == if j < 8 * g && j % 8 > 2 && j % 2 == 1 then Xor(k[j], Kw2At(k, j / 8)) else k[j]
  {
    hide Xor, Kw2At;
    if g > 0 {
      With2Is(k, g - 1, j);
      GroupOf(j, g - 1);
    }
  }

  lemma {:induction false} With4Is(k: seq<Half>, max: nat, g: nat, j: nat)
    requires max % 8 == 0 && j <= max && |k| == max + 2
    ensures With4(k, max, g, j) ==
              if 8 * g <= j < max && j % 8 >= 2 && j % 2 == 0 then Xor(k[j], Kw4At(k, max, j / 8)) else k[j]
    decreases max - g
  {
    hide Xor, Kw4At;
    if 8 * g < max {
      With4Is(k, max, g + 1, j);
      EvenPlace(j, g, max);
    }
  }

  /** The even places after the first of a group of eight. */
  lemma EvenPlace(j: nat, g: nat, max: nat)
    requires max % 8 == 0 && 8 * g < max
    ensures j == 8 * g + 2 || j == 8 * g + 4 || j == 8 * g + 6 <==>
              j / 8 == g && 8 * g <= j < max && j % 8 >= 2 && j % 2 == 0
    ensures 8 * g <= j && j / 8 != g <==> 8 * (g + 1) <= j
  {
    GroupOf(j, g);
    NextGroup(g, max);
    Parity(j);
  }

  lemma NextGroup(g: nat, max: nat)
    requires max % 8 == 0 && 8 * g < max
    ensures 8 * (g + 1) <= max
  {}

  lemma Parity(j: nat)
    ensures j % 2 == (j % 8) % 2
  {}

  /** Where an index falls in the groups of eight. */
  lemma GroupOf(j: nat, g: nat)
    ensures 8 * g <= j < 8 * g + 8 <==> j / 8 == g
    ensures 8 * g <= j < 8 * g + 8 ==> j % 8 == j - 8 * g
  {}

  /** Three rounds, every other one, take the same key. */
  method AddToThree(sub: array<Half>, p: nat, d: Half)
    requires p + 4 < sub.Length
    modifies sub
    ensures forall j | 0 <= j < sub.Length :: sub[j] ==
              if j == p || j == p + 2 || j == p + 4 then Xor(old(sub[j]), d) else old(sub[j])
  {
    hide Xor;
    sub[p] := Xor(sub[p], d);
    sub[p + 2] := Xor(sub[p + 2], d);
    sub[p + 4] := Xor(sub[p + 4], d);
  }

  /** Rounds 8g + 2, 8g + 4 and 8g + 6 take what kw2 has become. */
  method EvenRoundsTakeKw2(sub: array<Half>, g: nat, ghost k: seq<Half>)
    requires sub.Length == |k| && 8 * g + 7 < |k|
    requires sub[1] == Kw2At(k, g)
    requires forall j | 0 <= j < |k| && j != 1 :: sub[j] == With2(k, g, j)
    modifies sub
    ensures sub[1] == Kw2At(k, g)
    ensures forall j | 0 <= j < |k| && j != 1 :: sub[j] == With2(k, g + 1, j)
  {
    hide Xor, DiffInv, Kw2At;
    forall j | 8 * g <= j < |k|
      ensures With2(k, g, j) == k[j]
    {
      With2Is(k, g, j);
    }
    AddToThree(sub, 8 * g + 3, sub[1]);
  }

  /** Rounds 8g + 5, 8g + 3 and 8g + 1 take what kw4 has become. */
  method OddRoundsTakeKw4(sub: array<Half>, g: nat, kw4: Half, max: nat, ghost k: seq<Half>)
    requires max % 8 == 0 && sub.Length == |k| == max + 2 && 8 * g < max
    requires kw4 == Kw4At(k, max, g)
    requires forall j | 0 <= j <= max && j != 1 :: sub[j] == With4(k, max, g + 1, j)
    modifies sub
    ensures forall j | 0 <= j <= max && j != 1 :: sub[j] == With4(k, max, g, j)
  {
    hide Xor, DiffInv, Kw4At;
    forall j | 0 <= j < 8 * g + 8
      ensures With4(k, max, g + 1, j) == k[j]
    {
      With4Is(k, max, g + 1, j);
    }
    AddToThree(sub, 8 * g + 2, kw4);
  }

  method AbsorbKw2(sub: array<Half>, max: nat)
    requires max == 24 || max == 32
    requires sub.Length == max + 2
    modifies sub
    ensures forall j | 0 <= j <= max + 1 && j != 1 :: sub[j] == old(
              if j == max then Xor(sub[max], Kw2At(sub[..], max / 8 - 1)) else With2(sub[..], max / 8, j))
  {
    hide Xor, DiffInv, Kw2At, With2;
    ghost var k := sub[..];
    forall g: nat, j: nat | 8 * g <= |k| && j < |k| && (g == 0 || j % 8 == 1)
      ensures With2(k, g, j) == k[j]
    {
      With2Is(k, g, j);
    }
    With2Is(k, max / 8, max);
    assert sub[1] == Kw2At(k, 0) by { Kw2Step(k, 0); }
    EvenRoundsTakeKw2(sub, 0, k);
    sub[1] := DiffInv(sub[1], sub[9]);
    assert sub[1] == Kw2At(k, 1) by { Kw2Step(k, 1); }
    EvenRoundsTakeKw2(sub, 1, k);
    sub[1] := DiffInv(sub[1], sub[17]);
    assert sub[1] == Kw2At(k, 2) by { Kw2Step(k, 2); }
    EvenRoundsTakeKw2(sub, 2, k);
    if max == 32 {
      sub[1] := DiffInv(sub[1], sub[25]);
      assert sub[1] == Kw2At(k, 3) by { Kw2Step(k, 3); }
      EvenRoundsTakeKw2(sub, 3, k);
    }
    sub[max] := Xor(sub[max], sub[1]);
  }

  lemma Kw2Step(k: seq<Half>, g: nat)
    requires 8 * g + 1 < |k|
    ensures Kw2At(k, g) == if g == 0 then k[1] else DiffInv(Kw2At(k, g - 1), k[8 * g + 1])
  {}

  method AbsorbKw4(sub: array<Half>, max: nat)
    requires max == 24 || max == 32
    requires sub.Length == max + 2
    modifies sub
    ensures forall j | 0 <= j <= max && j != 1 :: sub[j] == old(
              if j == 0 then Xor(sub[0], Kw4At(sub[..], max, 0)) else With4(sub[..], max, 0, j))
  {
    hide Xor, DiffInv, Kw4At, With4;
    ghost var k := sub[..];
    forall g: nat, j: nat | j <= max && (8 * g >= max || j % 8 == 0)
      ensures With4(k, max, g, j) == k[j]
    {
      With4Is(k, max, g, j);
    }
    var kw4 := sub[max + 1];
    if max == 32 {
      Kw4Step(k, max, 3);
      OddRoundsTakeKw4(sub, 3, kw4, max, k);
      kw4 := DiffInv(kw4, sub[24]);
    }
    assert kw4 == Kw4At(k, max, 2) by { Kw4Step(k, max, 2); }
    OddRoundsTakeKw4(sub, 2, kw4, max, k);
    kw4 := DiffInv(kw4, sub[16]);
    assert kw4 == Kw4At(k, max, 1) by { Kw4Step(k, max, 1); }
    OddRoundsTakeKw4(sub, 1, kw4, max, k);
    kw4 := DiffInv(kw4, sub[8]);
    assert kw4 == Kw4At(k, max, 0) by { Kw4Step(k, max, 0); }
    OddRoundsTakeKw4(sub, 0, kw4, max, k);
    sub[0] := Xor(sub[0], kw4);
  }

  lemma Kw4Step(k: seq<Half>, max: nat, g: nat)
    requires max % 8 == 0 && 8 * g < max && |k| == max + 2
    ensures Kw4At(k, max, g) ==
              if 8 * g + 8 == max then k[max + 1] else DiffInv(Kw4At(k, max, g + 1), k[8 * g + 8])
  {}

  // ----- the table before the last half of P is undone

  /** The subkeys with both whitening keys absorbed. */
  ghost predicate IsAbsorbed(sub: seq<Half>, k: seq<Half>, max: nat)
  {
    && (max == 24 || max == 32)
    && |sub| == |k| == max + 2
    && sub[0] == Xor(k[0], Kw4At(k, max, 0))
    && sub[max] == Xor(k[max], Kw2At(k, max / 8 - 1))
    && (forall j | 2 < j < max && j % 8 > 2 && j % 2 == 1 :: sub[j] == Xor(k[j], Kw2At(k, j / 8)))
    && (forall j | 2 <= j < max && j % 8 >= 2 && j % 2 == 0 :: sub[j] == Xor(k[j], Kw4At(k, max, j / 8)))
    && (forall j | 8 <= j < max && j % 8 < 2 :: sub[j] == k[j])
  }

  /** What the source stores in table entry j when the key xor moves to the end of F. */
  function Moved(sub: seq<Half>, max: nat, j: nat): Half
    requires max == 24 || max == 32
    requires |sub| == max + 2
    requires j <= max && j != 1
  {
    if j == 0 then Xor(sub[0], sub[2])
    else if j == max then Xor(sub[max], sub[max - 1])
    else if j % 8 < 2 then sub[j]
    else if j == 2 then sub[3]
    else if j == max - 1 then sub[max - 2]
    else if j % 8 == 7 then Xor(sub[j - 1], DiffInv(sub[j + 3], sub[j + 1]))
    else if j % 8 == 2 then Xor(DiffInv(sub[j - 3], sub[j - 1]), sub[j + 1])
    else Xor(sub[j - 1], sub[j + 1])
  }

  /** The absorbed entries around the first round of a group. */
  lemma AroundFirst(sub: seq<Half>, k: seq<Half>, max: nat, j: nat)
    requires IsAbsorbed(sub, k, max) && 2 < j < max && j % 8 == 2
    ensures sub[j - 3] == Xor(k[j - 3], Kw2At(k, j / 8 - 1)) && sub[j - 1] == k[j - 1]
    ensures sub[j + 1] == Xor(k[j + 1], Kw2At(k, j / 8))
  {
    hide Xor, Kw2At, Kw4At;
    assert (j - 3) / 8 == j / 8 - 1 && (j - 3) % 8 == 7 && (j - 1) % 8 == 1;
    assert (j + 1) / 8 == j / 8 && (j + 1) % 8 == 3;
  }

  lemma AfterLayer(sub: seq<Half>, k: seq<Half>, max: nat, j: nat)
    requires IsAbsorbed(sub, k, max)
    requires 2 < j < max && j % 8 == 2
    ensures Moved(sub, max, j) == EndKey(k, max, j)
  {
    hide Xor, DiffInv, Kw2At, Kw4At;
    var g := j / 8;
    AroundFirst(sub, k, max, j);
    assert Moved(sub, max, j) == Xor(DiffInv(sub[j - 3], sub[j - 1]), sub[j + 1]);
    assert EndKey(k, max, j) == Xor(DiffInv(k[j - 3], k[j - 1]), k[j + 1]);
    assert 8 * g + 1 == j - 1;
    hide IsAbsorbed, Moved, EndKey;
    Kw2Step(k, g);
    DiffInvLinear(k[j - 3], Kw2At(k, g - 1), k[j - 1]);
    XorDrop(DiffInv(k[j - 3], k[j - 1]), k[j + 1], Kw2At(k, g));
  }

  /** The absorbed entries around the last round of a group. */
  lemma AroundLast(sub: seq<Half>, k: seq<Half>, max: nat, j: nat)
    requires IsAbsorbed(sub, k, max) && j < max - 1 && j % 8 == 7
    ensures sub[j - 1] == Xor(k[j - 1], Kw4At(k, max, j / 8)) && sub[j + 1] == k[j + 1]
    ensures sub[j + 3] == Xor(k[j + 3], Kw4At(k, max, j / 8 + 1))
  {
    hide Xor, Kw2At, Kw4At;
    assert (j - 1) / 8 == j / 8 && (j - 1) % 8 == 6 && (j + 1) % 8 == 0;
    assert (j + 3) / 8 == j / 8 + 1 && (j + 3) % 8 == 2;
  }

  lemma BeforeLayer(sub: seq<Half>, k: seq<Half>, max: nat, j: nat)
    requires IsAbsorbed(sub, k, max)
    requires j < max - 1 && j % 8 == 7
    ensures Moved(sub, max, j) == EndKey(k, max, j)
  {
    hide Xor, DiffInv, Kw2At, Kw4At;
    var g := j / 8;
    AroundLast(sub, k, max, j);
    assert Moved(sub, max, j) == Xor(sub[j - 1], DiffInv(sub[j + 3], sub[j + 1]));
    assert EndKey(k, max, j) == Xor(k[j - 1], DiffInv(k[j + 3], k[j + 1]));
    assert 8 * g + 8 == j + 1 && 8 * g + 8 < max && max % 8 == 0;
    hide IsAbsorbed, Moved, EndKey;
    Kw4Step(k, max, g);
    DiffInvLinear(k[j + 3], Kw4At(k, max, g + 1), k[j + 1]);
    XorDrop(k[j - 1], DiffInv(k[j + 3], k[j + 1]), Kw4At(k, max, g));
  }

  lemma InsideGroup(sub: seq<Half>, k: seq<Half>, max: nat, j: nat)
    requires IsAbsorbed(sub, k, max)
    requires 2 < j < max && 2 < j % 8 < 7
    ensures Moved(sub, max, j) == EndKey(k, max, j)
  {
    hide Xor, DiffInv, Kw2At, Kw4At;
    XorDrop(k[j - 1], k[j + 1], Kw2At(k, j / 8));
    XorDrop(k[j - 1], k[j + 1], Kw4At(k, max, j / 8));
    assert (j - 1) / 8 == (j + 1) / 8 == j / 8;
  }

  lemma AtTheEnds(sub: seq<Half>, k: seq<Half>, max: nat, j: nat)
    requires IsAbsorbed(sub, k, max)
    requires j == 0 || j == 2 || j == max - 1 || j == max
    ensures Moved(sub, max, j) == EndKey(k, max, j)
  {
    hide Xor, DiffInv, Kw2At, Kw4At;
    XorDrop(k[0], k[2], Kw4At(k, max, 0));
    XorDrop(k[max], k[max - 1], Kw2At(k, max / 8 - 1));
    Kw2Step(k, 0); XorComm(k[3], k[1]);
    Kw4Step(k, max, max / 8 - 1);
    assert (max - 1) / 8 == max / 8 - 1 && (max - 2) / 8 == max / 8 - 1;
  }

  /** The absorbed whitening keys cancel in every entry but those of the first and last round. */
  lemma MovedIsEndKey(sub: seq<Half>, k: seq<Half>, max: nat)
    requires IsAbsorbed(sub, k, max)
    ensures forall j | 0 <= j <= max && j != 1 :: Moved(sub, max, j) == EndKey(k, max, j)
  {
    hide Moved, EndKey;
    forall j | 0 <= j <= max && j != 1
      ensures Moved(sub, max, j) == EndKey(k, max, j)
    {
      if j == 0 || j == 2 || j == max - 1 || j == max {
        AtTheEnds(sub, k, max, j);
      } else if j % 8 < 2 {
        LayerKey(sub, k, max, j);
      } else if j % 8 == 2 {
        AfterLayer(sub, k, max, j);
      } else if j % 8 == 7 {
        BeforeLayer(sub, k, max, j);
      } else {
        InsideGroup(sub, k, max, j);
      }
    }
  }

  lemma LayerKey(sub: seq<Half>, k: seq<Half>, max: nat, j: nat)
    requires IsAbsorbed(sub, k, max)
    requires 2 < j < max && j % 8 < 2
    ensures Moved(sub, max, j) == EndKey(k, max, j)
  {
    hide Xor, DiffInv, Kw2At, Kw4At;
  }

  /** Two entries inside a group. */
  method MovePair(subkey: array<Half>, sub: array<Half>, max: nat, i: nat)
    requires max == 24 || max == 32
    requires subkey.Length > max && sub.Length == max + 2 && i < max && 2 < i % 8 < 6
    requires subkey != sub
    modifies subkey
    ensures forall j | 0 <= j < subkey.Length && j != 1 :: subkey[j] ==
              if i <= j < i + 2 then Moved(sub[..], max, j) else old(subkey[j])
  {
    hide Xor, DiffInv;
    assert Moved(sub[..], max, i) == Xor(sub[i - 1], sub[i + 1]);
    assert Moved(sub[..], max, i + 1) == Xor(sub[i], sub[i + 2]);
    hide Moved;
    subkey[i] := Xor(sub[i - 1], sub[i + 1]);
    subkey[i + 1] := Xor(sub[i], sub[i + 2]);
  }

  /** The first entry of a group. */
  method MoveFirst(subkey: array<Half>, sub: array<Half>, max: nat, i: nat)
    requires max == 24 || max == 32
    requires subkey.Length > max && sub.Length == max + 2 && i < max && i % 8 == 2
    requires subkey != sub
    modifies subkey
    ensures forall j | 0 <= j < subkey.Length && j != 1 :: subkey[j] ==
              if j == i then Moved(sub[..], max, j) else old(subkey[j])
  {
    hide Xor, DiffInv;
    if i == 2 {
      subkey[2] := sub[3];
    } else {
      var t := DiffInv(sub[i - 3], sub[i - 1]);
      subkey[i] := Xor(t, sub[i + 1]);
    }
  }

  /** The last entry of a group, and the keys of the layer behind it if there is one. */
  method MoveLast(subkey: array<Half>, sub: array<Half>, max: nat, i: nat)
    requires max == 24 || max == 32
    requires subkey.Length > max && sub.Length == max + 2 && i < max && i % 8 == 7
    requires subkey != sub
    modifies subkey
    ensures forall j | 0 <= j < subkey.Length && j != 1 :: subkey[j] ==
              if i <= j < i + 3 && j < max then Moved(sub[..], max, j) else old(subkey[j])
  {
    hide Xor, DiffInv;
    if i + 1 == max {
      subkey[i] := sub[i - 1];
    } else {
      var t := DiffInv(sub[i + 3], sub[i + 1]);
      subkey[i] := Xor(sub[i - 1], t);
      subkey[i + 1] := sub[i + 1];
      subkey[i + 2] := sub[i + 2];
    }
  }

  /** Entries 8g + 2 to 8g + 9, or to 8g + 7 in the last group. */
  method MoveGroup(subkey: array<Half>, sub: array<Half>, max: nat, g: nat)
    requires max == 24 || max == 32
    requires subkey.Length > max && sub.Length == max + 2 && 8 * g < max
    requires subkey != sub
    modifies subkey
    ensures forall j | 0 <= j < subkey.Length && j != 1 :: subkey[j] ==
              if 8 * g + 2 <= j < 8 * g + 10 && j < max then Moved(sub[..], max, j) else old(subkey[j])
  {
    hide Moved;
    MoveFirst(subkey, sub, max, 8 * g + 2);
    MovePair(subkey, sub, max, 8 * g + 3);
    MovePair(subkey, sub, max, 8 * g + 5);
    MoveLast(subkey, sub, max, 8 * g + 7);
  }

  method MoveToEndOfF(subkey: array<Half>, sub: array<Half>, max: nat)
    requires max == 24 || max == 32
    requires subkey.Length > max && sub.Length == max + 2
    requires subkey != sub
    modifies subkey
    ensures forall j | 0 <= j <= max && j != 1 :: subkey[j] == Moved(sub[..], max, j)
  {
    hide Xor, DiffInv;
    assert Moved(sub[..], max, 0) == Xor(sub[0], sub[2]);
    assert Moved(sub[..], max, max) == Xor(sub[max], sub[max - 1]);
    hide Moved;
    subkey[0] := Xor(sub[0], sub[2]);
    MoveGroup(subkey, sub, max, 0);
    MoveGroup(subkey, sub, max, 1);
    MoveGroup(subkey, sub, max, 2);
    if max == 32 {
      MoveGroup(subkey, sub, max, 3);
    }
    subkey[max] := Xor(sub[max], sub[max - 1]);
  }

  method UndoThree(subkey: array<Half>, i: nat)
    requires i + 2 < subkey.Length
    modifies subkey
    ensures forall j | 0 <= j < subkey.Length :: subkey[j] ==
              if i <= j < i + 3 then InverseHalfP(old(subkey[j])) else old(subkey[j])
  {
    hide InverseHalfP;
    subkey[i] := InverseHalfP(subkey[i]);
    subkey[i + 1] := InverseHalfP(subkey[i + 1]);
    subkey[i + 2] := InverseHalfP(subkey[i + 2]);
  }

  /** Undo the last half of P on the round keys, six at a time. */
  method UndoLastHalfP(subkey: array<Half>, max: nat)
    requires max == 24 || max == 32
    requires subkey.Length > max
    modifies subkey
    ensures forall j | 0 <= j <= max :: subkey[j] ==
              if IsRoundKey(j) then InverseHalfP(old(subkey[j])) else old(subkey[j])
  {
    hide InverseHalfP;
    var i := 2;
    while i < max
      invariant 2 <= i <= max + 2 && i % 8 == 2
      invariant forall j | 0 <= j <= max :: subkey[j] ==
                  if IsRoundKey(j) && j < i then InverseHalfP(old(subkey[j])) else old(subkey[j])
    {
      UndoThree(subkey, i);
      UndoThree(subkey, i + 3);
      i := i + 8;
    }
  }

  lemma BothAbsorbed(k: seq<Half>, k2: seq<Half>, sub: seq<Half>, max: nat)
    requires max == 24 || max == 32
    requires |k| == |k2| == |sub| == max + 2
    requires forall j | 0 <= j <= max + 1 && j != 1 :: k2[j] ==
               if j == max then Xor(k[max], Kw2At(k, max / 8 - 1)) else With2(k, max / 8, j)
    requires forall j | 0 <= j <= max && j != 1 :: sub[j] ==
               if j == 0 then Xor(k2[0], Kw4At(k2, max, 0)) else With4(k2, max, 0, j)
    ensures IsAbsorbed(sub, k, max)
  {
    hide Xor, DiffInv, Kw2At, Kw4At, With2, With4;
    forall j | 0 <= j <= max + 1 && j != 1
      ensures k2[j] == if j == max then Xor(k[max], Kw2At(k, max / 8 - 1))
                       else if j < max && j % 8 > 2 && j % 2 == 1 then Xor(k[j], Kw2At(k, j / 8)) else k[j]
    {
      With2Is(k, max / 8, j);
    }
    forall j | 0 < j <= max && j != 1
      ensures sub[j] == if j < max && j % 8 >= 2 && j % 2 == 0 then Xor(k2[j], Kw4At(k2, max, j / 8)) else k2[j]
    {
      With4Is(k2, max, 0, j);
    }
    forall g: nat | 8 * g < max
      ensures Kw4At(k2, max, g) == Kw4At(k, max, g)
    {
      SameKw4(k, k2, max, g);
    }
  }

  lemma {:induction false} SameKw4(k: seq<Half>, k2: seq<Half>, max: nat, g: nat)
    requires max % 8 == 0 && 8 * g < max && |k| == |k2| == max + 2
    requires k2[max + 1] == k[max + 1]
    requires forall j | 8 <= j < max && j % 8 == 0 :: k2[j] == k[j]
    ensures Kw4At(k2, max, g) == Kw4At(k, max, g)
    decreases max - g
  {
    hide DiffInv;
    if 8 * g + 8 < max {
      SameKw4(k, k2, max, g + 1);
    }
  }

  /** camellia_setup_tail: the table it leaves is the one the round code needs. */
  method SetupTail(subkey: array<Half>, sub: array<Half>, max: nat)
    requires max == 24 || max == 32
    requires subkey.Length > max && sub.Length == max + 2
    requires subkey != sub
    modifies subkey, sub
    ensures TableFor(subkey[..], old(sub[..]), max)
    ensures forall t: Tables, m: Block ::
              Swap(Encrypt(t, subkey[..], max, m)) == Textbook(t, old(sub[..]), max, m)
  {
    hide Xor, DiffInv, Kw2At, Kw4At, With2, With4, Moved, EndKey, InverseHalfP, Encrypt, Textbook, IsAbsorbed;
    ghost var k := sub[..];
    AbsorbKw2(sub, max);
    ghost var k2 := sub[..];
    AbsorbKw4(sub, max);
    BothAbsorbed(k, k2, sub[..], max);
    MoveToEndOfF(subkey, sub, max);
    MovedIsEndKey(sub[..], k, max);
    ghost var moved := subkey[..];
    assert forall j | 0 <= j <= max && j != 1 :: moved[j] == EndKey(k, max, j);
    UndoLastHalfP(subkey, max);
    ghost var tab := subkey[..];
    assert TableFor(tab, k, max);
    forall t: Tables, m: Block
      ensures Swap(Encrypt(t, tab, max, m)) == Textbook(t, k, max, m)
    {
      EncryptIsTextbook(t, k, max, tab, m);
    }
  }
}
