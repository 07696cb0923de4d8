/** camellia_setup128, 192 and 256: from a user key to the table of subkeys, against the key
    schedule of RFC 3713, section 2.2. */
module CamelliaKeys {
  import opened Words
  import opened CamelliaCipher
  import opened CamelliaRounds
  import opened CamelliaTail
  import opened CamelliaRotations

  const Sigma1 := Half(0xA09E667F, 0x3BCC908B)
  const Sigma2 := Half(0xB67AE858, 0x4CAA73B2)
  const Sigma3 := Half(0xC6EF372F, 0xE94F82BE)
  const Sigma4 := Half(0x54FF53A5, 0xF1D36F1C)
  const Sigma5 := Half(0x10E527FA, 0xDE682D1D)
  const Sigma6 := Half(0xB05688C2, 0xB3E6C1FD)

  // ----- section 2.2 of RFC 3713

  function KaOf(t: Tables, kl: Block, kr: Block): Block {
    var d1, d2 := Xor(kl.a, kr.a), Xor(kl.b, kr.b);
    var d2' := Xor(d2, F(t, d1, Sigma1));
    var d1' := Xor(d1, F(t, d2', Sigma2));
    var d1'' := Xor(d1', kl.a);
    var d2'' := Xor(d2', kl.b);
    var b := Xor(d2'', F(t, d1'', Sigma3));
    Block(Xor(d1'', F(t, b, Sigma4)), b)
  }

  function KbOf(t: Tables, ka: Block, kr: Block): Block {
    var d1, d2 := Xor(ka.a, kr.a), Xor(ka.b, kr.b);
    var b := Xor(d2, F(t, d1, Sigma5));
    Block(Xor(d1, F(t, b, Sigma6)), b)
  }

  /** The 128-bit key schedule in the source's order of subkeys. */
  function Subkey128(kl: Block, ka: Block, j: nat): Half
    requires j < 26
  {
    match j
    case 0 => Rotated(kl, 0).a        // kw1
    case 1 => Rotated(kl, 0).b        // kw2
    case 2 => Rotated(ka, 0).a        // k1
    case 3 => Rotated(ka, 0).b        // k2
    case 4 => Rotated(kl, 15).a       // k3
    case 5 => Rotated(kl, 15).b       // k4
    case 6 => Rotated(ka, 15).a       // k5
    case 7 => Rotated(ka, 15).b       // k6
    case 8 => Rotated(ka, 30).a       // ke1
    case 9 => Rotated(ka, 30).b       // ke2
    case 10 => Rotated(kl, 45).a      // k7
    case 11 => Rotated(kl, 45).b      // k8
    case 12 => Rotated(ka, 45).a      // k9
    case 13 => Rotated(kl, 60).b      // k10
    case 14 => Rotated(ka, 60).a      // k11
    case 15 => Rotated(ka, 60).b      // k12
    case 16 => Rotated(kl, 77).a      // ke3
    case 17 => Rotated(kl, 77).b      // ke4
    case 18 => Rotated(kl, 94).a      // k13
    case 19 => Rotated(kl, 94).b      // k14
    case 20 => Rotated(ka, 94).a      // k15
    case 21 => Rotated(ka, 94).b      // k16
    case 22 => Rotated(kl, 111).a     // k17
    case 23 => Rotated(kl, 111).b     // k18
    case 24 => Rotated(ka, 111).a     // kw3
    case _ => Rotated(ka, 111).b      // kw4
  }

  function Subkeys128(kl: Block, ka: Block): (s: seq<Half>)
    ensures |s| == 26
  {
    seq(26, j requires 0 <= j < 26 => Subkey128(kl, ka, j))
  }

  /** The 192- and 256-bit key schedule in the source's order of subkeys. */
  function Subkey256(kl: Block, kr: Block, ka: Block, kb: Block, j: nat): Half
    requires j < 34
  {
    match j
    case 0 => Rotated(kl, 0).a        // kw1
    case 1 => Rotated(kl, 0).b        // kw2
    case 2 => Rotated(kb, 0).a        // k1
    case 3 => Rotated(kb, 0).b        // k2
    case 4 => Rotated(kr, 15).a       // k3
    case 5 => Rotated(kr, 15).b       // k4
    case 6 => Rotated(ka, 15).a       // k5
    case 7 => Rotated(ka, 15).b       // k6
    case 8 => Rotated(kr, 30).a       // ke1
    case 9 => Rotated(kr, 30).b       // ke2
    case 10 => Rotated(kb, 30).a      // k7
    case 11 => Rotated(kb, 30).b      // k8
    case 12 => Rotated(kl, 45).a      // k9
    case 13 => Rotated(kl, 45).b      // k10
    case 14 => Rotated(ka, 45).a      // k11
    case 15 => Rotated(ka, 45).b      // k12
    case 16 => Rotated(kl, 60).a      // ke3
    case 17 => Rotated(kl, 60).b      // ke4
    case 18 => Rotated(kr, 60).a      // k13
    case 19 => Rotated(kr, 60).b      // k14
    case 20 => Rotated(kb, 60).a      // k15
    case 21 => Rotated(kb, 60).b      // k16
    case 22 => Rotated(kl, 77).a      // k17
    case 23 => Rotated(kl, 77).b      // k18
    case 24 => Rotated(ka, 77).a      // ke5
    case 25 => Rotated(ka, 77).b      // ke6
    case 26 => Rotated(kr, 94).a      // k19
    case 27 => Rotated(kr, 94).b      // k20
    case 28 => Rotated(ka, 94).a      // k21
    case 29 => Rotated(ka, 94).b      // k22
    case 30 => Rotated(kl, 111).a     // k23
    case 31 => Rotated(kl, 111).b     // k24
    case 32 => Rotated(kb, 111).a     // kw3
    case _ => Rotated(kb, 111).b      // kw4
  }

  function Subkeys256(kl: Block, kr: Block, ka: Block, kb: Block): (s: seq<Half>)
    ensures |s| == 34
  {
    seq(34, j requires 0 <= j < 34 => Subkey256(kl, kr, ka, kb, j))
  }

  // ----- the user key

  /** get_unaligned_be32 */
  function Be32(key: seq<bv8>, i: nat): Word
    requires i + 3 < |key|
  {
    FromBytes(key[i], key[i + 1], key[i + 2], key[i + 3])
  }

  function KeyBlock(key: seq<bv8>, i: nat): Block
    requires i + 15 < |key|
  {
    Block(Half(Be32(key, i), Be32(key, i + 4)), Half(Be32(key, i + 8), Be32(key, i + 12)))
  }

  // ----- camellia_setup128

  method Store(sub: array<Half>, i: nat, q: Block)
    requires i + 1 < sub.Length
    modifies sub
    ensures sub[i] == q.a && sub[i + 1] == q.b
    ensures forall j | 0 <= j < sub.Length && j != i && j != i + 1 :: sub[j] == old(sub[j])
  {
    sub[i], sub[i + 1] := q.a, q.b;
  }

  predicate FromKl128(j: nat) {
    j == 0 || j == 1 || j == 4 || j == 5 || j == 10 || j == 11 || j == 13
    || 16 <= j <= 19 || j == 22 || j == 23
  }

  ghost predicate KlPart128(sub: seq<Half>, kl: Block)
    requires |sub| == 26
  {
    && sub[0] == Rotated(kl, 0).a
    && sub[1] == Rotated(kl, 0).b
    && sub[4] == Rotated(kl, 15).a
    && sub[5] == Rotated(kl, 15).b
    && sub[10] == Rotated(kl, 45).a
    && sub[11] == Rotated(kl, 45).b
    && sub[13] == Rotated(kl, 60).b
    && sub[16] == Rotated(kl, 77).a
    && sub[17] == Rotated(kl, 77).b
    && sub[18] == Rotated(kl, 94).a
    && sub[19] == Rotated(kl, 94).b
    && sub[22] == Rotated(kl, 111).a
    && sub[23] == Rotated(kl, 111).b
  }

  ghost predicate KaPart128(sub: seq<Half>, ka: Block)
    requires |sub| == 26
  {
    && sub[2] == Rotated(ka, 0).a
    && sub[3] == Rotated(ka, 0).b
    && sub[6] == Rotated(ka, 15).a
    && sub[7] == Rotated(ka, 15).b
    && sub[8] == Rotated(ka, 30).a
    && sub[9] == Rotated(ka, 30).b
    && sub[12] == Rotated(ka, 45).a
    && sub[14] == Rotated(ka, 60).a
    && sub[15] == Rotated(ka, 60).b
    && sub[20] == Rotated(ka, 94).a
    && sub[21] == Rotated(ka, 94).b
    && sub[24] == Rotated(ka, 111).a
    && sub[25] == Rotated(ka, 111).b
  }

  lemma KlKept128(old_: seq<Half>, sub: seq<Half>, kl: Block)
    requires |old_| == |sub| == 26 && KlPart128(old_, kl)
    requires forall j | 0 <= j < 26 && FromKl128(j) :: sub[j] == old_[j]
    ensures KlPart128(sub, kl)
  {
    hide Rotated;
  }

  lemma BothParts128(sub: seq<Half>, kl: Block, ka: Block)
    requires |sub| == 26
    requires KlPart128(sub, kl) && KaPart128(sub, ka)
    ensures sub == Subkeys128(kl, ka)
  {
    hide Rotated, Subkey128, KlPart128, KaPart128;
    forall j | 0 <= j < 26
      ensures sub[j] == Subkey128(kl, ka, j)
    {
      if FromKl128(j) { KlMatches128(sub, kl, ka, j); } else { KaMatches128(sub, kl, ka, j); }
    }
  }

  lemma KlMatches128(sub: seq<Half>, kl: Block, ka: Block, j: nat)
    requires |sub| == 26 && KlPart128(sub, kl) && j < 26 && FromKl128(j)
    ensures sub[j] == Subkey128(kl, ka, j)
  {
    hide Rotated;
    assert j <= 1 || 4 <= j <= 5 || 10 <= j <= 11 || j == 13 || 16 <= j <= 19 || 22 <= j <= 23;
    hide FromKl128;
  }

  lemma KaMatches128(sub: seq<Half>, kl: Block, ka: Block, j: nat)
    requires |sub| == 26 && KaPart128(sub, ka) && j < 26 && !FromKl128(j)
    ensures sub[j] == Subkey128(kl, ka, j)
  {
    hide Rotated;
    assert 2 <= j <= 3 || 6 <= j <= 9 || j == 12 || 14 <= j <= 15 || 20 <= j <= 21 || 24 <= j <= 25;
    hide FromKl128;
  }

  method KlSubkeys128(sub: array<Half>, kl: Block)
    requires sub.Length == 26
    modifies sub
    ensures KlPart128(sub[..], kl) && Block(sub[0], sub[1]) == kl
  {
    hide Rotated, Roldq;
    var q := kl;
    TurnFull(kl);
    Store(sub, 0, q);
    Roldq15(q);
    q := Roldq(q, 15);
    Store(sub, 4, q);
    Roldq30(q); Turn15then30(kl);
    q := Roldq(q, 30);
    Store(sub, 10, q);
    Roldq15(q); Turn45then15(kl);
    q := Roldq(q, 15);
    sub[13] := q.b;
    Roldq17(q); Turn60then17(kl);
    q := Roldq(q, 17);
    Store(sub, 16, q);
    Roldq17(q); Turn77then17(kl);
    q := Roldq(q, 17);
    Store(sub, 18, q);
    Roldq17(q); Turn94then17(kl);
    q := Roldq(q, 17);
    Store(sub, 22, q);
  }

  /** The subkeys that KA gives by turns of 15 bits; the last of them is returned. */
  method KaTurns128(sub: array<Half>, ka: Block) returns (q: Block)
    requires sub.Length == 26
    modifies sub
    ensures q == Rotated(ka, 60)
    ensures sub[2] == Rotated(ka, 0).a && sub[3] == Rotated(ka, 0).b
    ensures sub[6] == Rotated(ka, 15).a && sub[7] == Rotated(ka, 15).b
    ensures sub[8] == Rotated(ka, 30).a && sub[9] == Rotated(ka, 30).b
    ensures sub[12] == Rotated(ka, 45).a && sub[14] == q.a && sub[15] == q.b
    ensures forall j | 0 <= j < 26 && FromKl128(j) :: sub[j] == old(sub[j])
  {
    hide Rotated, Roldq;
    q := ka;
    TurnFull(ka);
    Store(sub, 2, q);
    Roldq15(q);
    q := Roldq(q, 15);
    Store(sub, 6, q);
    Roldq15(q); Turn15then15(ka);
    q := Roldq(q, 15);
    Store(sub, 8, q);
    Roldq15(q); Turn30then15(ka);
    q := Roldq(q, 15);
    sub[12] := q.a;
    Roldq15(q); Turn45then15(ka);
    q := Roldq(q, 15);
    Store(sub, 14, q);
  }

  method KaSubkeys128(sub: array<Half>, ka: Block)
    requires sub.Length == 26
    modifies sub
    ensures KaPart128(sub[..], ka)
    ensures forall j | 0 <= j < 26 && FromKl128(j) :: sub[j] == old(sub[j])
  {
    hide Rotated, Roldq, RoldqO32;
    var q := KaTurns128(sub, ka);
    RoldqO34(q); Turn60then34(ka);
    q := RoldqO32(q, 34);
    Store(sub, 20, q);
    Roldq17(q); Turn94then17(ka);
    q := Roldq(q, 17);
    Store(sub, 24, q);
  }

  /** With no right key half, two of the xors of the standard fall away. */
  method MakeKa128(t: Tables, kl: Block) returns (ka: Block)
    ensures ka == KaOf(t, kl, Block(Zero, Zero))
  {
    hide Xor, F;
    ghost var z := Block(Zero, Zero);
    XorZero(kl.a); XorZero(kl.b);
    var w := F(t, kl.a, Sigma1);
    var r := Xor(kl.b, w);
    var l := F(t, r, Sigma2);
    XorBack(kl.a, l); XorComm(kl.a, l);
    XorBack(kl.b, w); XorComm(kl.b, w);
    r := F(t, l, Sigma3);
    XorComm(r, w);
    r := Xor(r, w);
    w := F(t, r, Sigma4);
    l := Xor(l, w);
    ka := Block(l, r);
  }

  lemma XorZero(a: Half)
    ensures Xor(a, Zero) == a
  {
    hide X;
    XSelf(a.l); XSelf(a.r);
  }

  /** The subkeys the setup of a 128-bit key hands to its tail. */
  function Schedule128(t: Tables, key: seq<bv8>): (s: seq<Half>)
    requires |key| == 16
    ensures |s| == 26
  {
    var kl := KeyBlock(key, 0);
    Subkeys128(kl, KaOf(t, kl, Block(Zero, Zero)))
  }

  method Setup128(t: Tables, key: seq<bv8>, subkey: array<Half>)
    requires |key| == 16 && subkey.Length > 24
    modifies subkey
    ensures TableFor(subkey[..], Schedule128(t, key), 24)
  {
    hide Be32, KaOf, Subkeys128, Rotated, KlPart128, KaPart128, FromKl128;
    var kl := KeyBlock(key, 0);
    var sub := new Half[26];
    KlSubkeys128(sub, kl);
    ghost var sub1 := sub[..];
    var ka := MakeKa128(t, Block(sub[0], sub[1]));
    KaSubkeys128(sub, ka);
    KlKept128(sub1, sub[..], kl);
    BothParts128(sub[..], kl, ka);
    SetupTail(subkey, sub, 24);
  }

  // ----- camellia_setup256

  /** The 128-bit value each subkey of the long schedule is cut from. */
  datatype Source = Kl | Kr | Ka | Kb

  function Owner256(j: nat): Source {
    if 4 <= j <= 5 || 8 <= j <= 9 || 18 <= j <= 19 || 26 <= j <= 27 then Kr
    else if 6 <= j <= 7 || 14 <= j <= 15 || 24 <= j <= 25 || 28 <= j <= 29 then Ka
    else if 2 <= j <= 3 || 10 <= j <= 11 || 20 <= j <= 21 || 32 <= j <= 33 then Kb
    else Kl
  }

  ghost predicate KlPart256(sub: seq<Half>, kl: Block)
    requires |sub| == 34
  {
    && sub[0] == Rotated(kl, 0).a && sub[1] == Rotated(kl, 0).b
    && sub[12] == Rotated(kl, 45).a && sub[13] == Rotated(kl, 45).b
    && sub[16] == Rotated(kl, 60).a && sub[17] == Rotated(kl, 60).b
    && sub[22] == Rotated(kl, 77).a && sub[23] == Rotated(kl, 77).b
    && sub[30] == Rotated(kl, 111).a && sub[31] == Rotated(kl, 111).b
  }

  lemma KlKept256(old_: seq<Half>, sub: seq<Half>, kl: Block)
    requires |old_| == |sub| == 34 && KlPart256(old_, kl)
    requires forall j | 0 <= j < 34 && Owner256(j) == Kl :: sub[j] == old_[j]
    ensures KlPart256(sub, kl)
  {
    hide Rotated;
  }

  ghost predicate KrPart256(sub: seq<Half>, kr: Block)
    requires |sub| == 34
  {
    && sub[4] == Rotated(kr, 15).a && sub[5] == Rotated(kr, 15).b
    && sub[8] == Rotated(kr, 30).a && sub[9] == Rotated(kr, 30).b
    && sub[18] == Rotated(kr, 60).a && sub[19] == Rotated(kr, 60).b
    && sub[26] == Rotated(kr, 94).a && sub[27] == Rotated(kr, 94).b
  }

  lemma KrKept256(old_: seq<Half>, sub: seq<Half>, kr: Block)
    requires |old_| == |sub| == 34 && KrPart256(old_, kr)
    requires forall j | 0 <= j < 34 && Owner256(j) == Kr :: sub[j] == old_[j]
    ensures KrPart256(sub, kr)
  {
    hide Rotated;
  }

  ghost predicate KaPart256(sub: seq<Half>, ka: Block)
    requires |sub| == 34
  {
    && sub[6] == Rotated(ka, 15).a && sub[7] == Rotated(ka, 15).b
    && sub[14] == Rotated(ka, 45).a && sub[15] == Rotated(ka, 45).b
    && sub[24] == Rotated(ka, 77).a && sub[25] == Rotated(ka, 77).b
    && sub[28] == Rotated(ka, 94).a && sub[29] == Rotated(ka, 94).b
  }

  lemma KaKept256(old_: seq<Half>, sub: seq<Half>, ka: Block)
    requires |old_| == |sub| == 34 && KaPart256(old_, ka)
    requires forall j | 0 <= j < 34 && Owner256(j) == Ka :: sub[j] == old_[j]
    ensures KaPart256(sub, ka)
  {
    hide Rotated;
  }

  ghost predicate KbPart256(sub: seq<Half>, kb: Block)
    requires |sub| == 34
  {
    && sub[2] == Rotated(kb, 0).a && sub[3] == Rotated(kb, 0).b
    && sub[10] == Rotated(kb, 30).a && sub[11] == Rotated(kb, 30).b
    && sub[20] == Rotated(kb, 60).a && sub[21] == Rotated(kb, 60).b
    && sub[32] == Rotated(kb, 111).a && sub[33] == Rotated(kb, 111).b
  }

  lemma KlMatches(sub: seq<Half>, kl: Block, kr: Block, ka: Block, kb: Block, j: nat)
    requires |sub| == 34 && KlPart256(sub, kl) && j < 34 && Owner256(j) == Kl
    ensures sub[j] == Subkey256(kl, kr, ka, kb, j)
  {
    hide Rotated;
    assert j <= 1 || 12 <= j <= 13 || 16 <= j <= 17 || 22 <= j <= 23 || 30 <= j <= 31;
    hide Owner256;
  }

  lemma KrMatches(sub: seq<Half>, kl: Block, kr: Block, ka: Block, kb: Block, j: nat)
    requires |sub| == 34 && KrPart256(sub, kr) && j < 34 && Owner256(j) == Kr
    ensures sub[j] == Subkey256(kl, kr, ka, kb, j)
  {
    hide Rotated;
    assert 4 <= j <= 5 || 8 <= j <= 9 || 18 <= j <= 19 || 26 <= j <= 27;
    hide Owner256;
  }

  lemma KaMatches(sub: seq<Half>, kl: Block, kr: Block, ka: Block, kb: Block, j: nat)
    requires |sub| == 34 && KaPart256(sub, ka) && j < 34 && Owner256(j) == Ka
    ensures sub[j] == Subkey256(kl, kr, ka, kb, j)
  {
    hide Rotated;
    assert 6 <= j <= 7 || 14 <= j <= 15 || 24 <= j <= 25 || 28 <= j <= 29;
    hide Owner256;
  }

  lemma KbMatches(sub: seq<Half>, kl: Block, kr: Block, ka: Block, kb: Block, j: nat)
    requires |sub| == 34 && KbPart256(sub, kb) && j < 34 && Owner256(j) == Kb
    ensures sub[j] == Subkey256(kl, kr, ka, kb, j)
  {
    hide Rotated;
    assert 2 <= j <= 3 || 10 <= j <= 11 || 20 <= j <= 21 || 32 <= j <= 33;
    hide Owner256;
  }

  lemma AllParts256(sub: seq<Half>, kl: Block, kr: Block, ka: Block, kb: Block)
    requires |sub| == 34
    requires KlPart256(sub, kl) && KrPart256(sub, kr) && KaPart256(sub, ka) && KbPart256(sub, kb)
    ensures sub == Subkeys256(kl, kr, ka, kb)
  {
    hide KlPart256, KrPart256, KaPart256, KbPart256, Owner256, Subkey256;
    forall j: nat | j < 34
      ensures sub[j] == Subkey256(kl, kr, ka, kb, j)
    {
      match Owner256(j)
      case Kl => KlMatches(sub, kl, kr, ka, kb, j);
      case Kr => KrMatches(sub, kl, kr, ka, kb, j);
      case Ka => KaMatches(sub, kl, kr, ka, kb, j);
      case Kb => KbMatches(sub, kl, kr, ka, kb, j);
    }
  }

  method KlSubkeys256(sub: array<Half>, kl: Block)
    requires sub.Length == 34
    modifies sub
    ensures KlPart256(sub[..], kl)
    ensures forall j | 0 <= j < 34 && Owner256(j) != Kl :: sub[j] == old(sub[j])
    ensures Block(sub[0], sub[1]) == kl && Owner256(0) == Owner256(1) == Kl
  {
    hide Rotated, Roldq, RoldqO32;
    var q := kl;
    TurnFull(kl);
    Store(sub, 0, q);
    RoldqO45(q);
    q := RoldqO32(q, 45);
    Store(sub, 12, q);
    Roldq15(q); Turn45then15(kl);
    q := Roldq(q, 15);
    Store(sub, 16, q);
    Roldq17(q); Turn60then17(kl);
    q := Roldq(q, 17);
    Store(sub, 22, q);
    RoldqO34(q); Turn77then34(kl);
    q := RoldqO32(q, 34);
    Store(sub, 30, q);
  }

  /** Leaves the key turned all the way round, which is where it started. */
  method KrSubkeys256(sub: array<Half>, kr: Block) returns (q: Block)
    requires sub.Length == 34
    modifies sub
    ensures KrPart256(sub[..], kr)
    ensures forall j | 0 <= j < 34 && Owner256(j) != Kr :: sub[j] == old(sub[j])
    ensures q == kr
  {
    hide Rotated, Roldq, RoldqO32;
    q := kr;
    Roldq15(q);
    q := Roldq(q, 15);
    Store(sub, 4, q);
    Roldq15(q); Turn15then15(kr);
    q := Roldq(q, 15);
    Store(sub, 8, q);
    Roldq30(q); Turn30then30(kr);
    q := Roldq(q, 30);
    Store(sub, 18, q);
    RoldqO34(q); Turn60then34(kr);
    q := RoldqO32(q, 34);
    Store(sub, 26, q);
    RoldqO34(q); Turn94then34(kr); TurnFull(kr);
    q := RoldqO32(q, 34);
  }

  method KaSubkeys256(sub: array<Half>, ka: Block)
    requires sub.Length == 34
    modifies sub
    ensures KaPart256(sub[..], ka)
    ensures forall j | 0 <= j < 34 && Owner256(j) != Ka :: sub[j] == old(sub[j])
  {
    hide Rotated, Roldq, RoldqO32;
    var q := ka;
    Roldq15(q);
    q := Roldq(q, 15);
    Store(sub, 6, q);
    Roldq30(q); Turn15then30(ka);
    q := Roldq(q, 30);
    Store(sub, 14, q);
    Turn32(q); Turn45then32(ka);
    sub[24] := Half(q.a.r, q.b.l);
    sub[25] := Half(q.b.r, q.a.l);
    RoldqO49(q); Turn45then49(ka);
    q := RoldqO32(q, 49);
    Store(sub, 28, q);
  }

  method KbSubkeys256(sub: array<Half>, kb: Block)
    requires sub.Length == 34
    modifies sub
    ensures KbPart256(sub[..], kb)
    ensures forall j | 0 <= j < 34 && Owner256(j) != Kb :: sub[j] == old(sub[j])
  {
    hide Rotated, Roldq, RoldqO32;
    var q := kb;
    TurnFull(kb);
    Store(sub, 2, q);
    Roldq30(q);
    q := Roldq(q, 30);
    Store(sub, 10, q);
    Roldq30(q); Turn30then30(kb);
    q := Roldq(q, 30);
    Store(sub, 20, q);
    RoldqO51(q); Turn60then51(kb);
    q := RoldqO32(q, 51);
    Store(sub, 32, q);
  }

  /** The source folds the two xors with KL into one with KR. */
  method MakeKa256(t: Tables, kl: Block, kr: Block) returns (ka: Block)
    ensures ka == KaOf(t, kl, kr)
  {
    hide Xor, F;
    var l, r := Xor(kl.a, kr.a), Xor(kl.b, kr.b);
    var w := F(t, l, Sigma1);
    r := Xor(r, w);
    l := F(t, r, Sigma2);
    XorThrough(kl.a, kr.a, l);
    l := Xor(l, kr.a);
    XorThrough(kl.b, kr.b, w);
    r := F(t, l, Sigma3);
    XorComm(r, Xor(w, kr.b));
    r := Xor(r, Xor(w, kr.b));
    w := F(t, r, Sigma4);
    l := Xor(l, w);
    ka := Block(l, r);
  }

  lemma XorThrough(a: Half, b: Half, f: Half)
    ensures Xor(Xor(Xor(a, b), f), a) == Xor(f, b)
  {
    hide Xor;
    XorComm(Xor(Xor(a, b), f), a); XorAssoc(a, b, f); XorBack(a, Xor(b, f)); XorComm(b, f);
  }

  method MakeKb256(t: Tables, ka: Block, kr: Block) returns (kb: Block)
    ensures kb == KbOf(t, ka, kr)
  {
    hide Xor, F;
    XorComm(kr.a, ka.a); XorComm(kr.b, ka.b);
    var l, r := Xor(kr.a, ka.a), Xor(kr.b, ka.b);
    var w := F(t, l, Sigma5);
    r := Xor(r, w);
    w := F(t, r, Sigma6);
    l := Xor(l, w);
    kb := Block(l, r);
  }

  /** The subkeys the setup of a 256-bit key hands to its tail. */
  function Schedule256(t: Tables, kl: Block, kr: Block): (s: seq<Half>)
    ensures |s| == 34
  {
    var ka := KaOf(t, kl, kr);
    Subkeys256(kl, kr, ka, KbOf(t, ka, kr))
  }

  method Setup256(t: Tables, key: seq<bv8>, subkey: array<Half>)
    requires |key| == 32 && subkey.Length > 32
    modifies subkey
    ensures TableFor(subkey[..], Schedule256(t, KeyBlock(key, 0), KeyBlock(key, 16)), 32)
  {
    hide Be32, KeyBlock, KaOf, KbOf, Subkeys256, Owner256, Rotated, KlPart256, KrPart256, KaPart256, KbPart256, TableFor, Encrypt, Textbook;
    var kl, kr := KeyBlock(key, 0), KeyBlock(key, 16);
    var sub := new Half[34];
    KlSubkeys256(sub, kl);
    ghost var s1 := sub[..];
    var q := KrSubkeys256(sub, kr);
    ghost var s2 := sub[..];
    var ka := MakeKa256(t, Block(sub[0], sub[1]), q);
    var kb := MakeKb256(t, ka, q);
    KaSubkeys256(sub, ka);
    ghost var s3 := sub[..];
    KbSubkeys256(sub, kb);
    KlKept256(s1, sub[..], kl);
    KrKept256(s2, sub[..], kr);
    KaKept256(s3, sub[..], ka);
    AllParts256(sub[..], kl, kr, ka, kb);
    SetupTail(subkey, sub, 32);
  }

  // ----- camellia_setup192

  /** The right key half of a 192-bit key: its last 64 bits, then their complement. */
  function Kr192(key: seq<bv8>): Block
    requires |key| == 24
  {
    var h := Half(Be32(key, 16), Be32(key, 20));
    Block(h, Half(Not(h.l), Not(h.r)))
  }

  lemma ComplementBytes(a: bv8, b: bv8, c: bv8, d: bv8)
    ensures FromBytes(NotByte(a), NotByte(b), NotByte(c), NotByte(d)) == Not(FromBytes(a, b, c, d))
  {
    ComplementBits(a, b, c, d);
    hide FromBytes;
  }

  lemma ComplementBits(a: bv8, b: bv8, c: bv8, d: bv8)
    ensures FromBytes(!a, !b, !c, !d) == !FromBytes(a, b, c, d)
  {}

  /** Appending bytes to a key does not change the words before them. */
  lemma WordKept(key: seq<bv8>, more: seq<bv8>, i: nat)
    requires i + 3 < |key|
    ensures Be32(key + more, i) == Be32(key, i)
  {
    hide FromBytes;
    var kk := key + more;
    assert kk[i] == key[i] && kk[i + 1] == key[i + 1] && kk[i + 2] == key[i + 2] && kk[i + 3] == key[i + 3];
  }

  lemma WordComplement(kk: seq<bv8>, i: nat, j: nat)
    requires i + 3 < |kk| && j + 3 < |kk|
    requires kk[j] == NotByte(kk[i]) && kk[j + 1] == NotByte(kk[i + 1])
    requires kk[j + 2] == NotByte(kk[i + 2]) && kk[j + 3] == NotByte(kk[i + 3])
    ensures Be32(kk, j) == Not(Be32(kk, i))
  {
    hide FromBytes, Not, NotByte;
    ComplementBytes(kk[i], kk[i + 1], kk[i + 2], kk[i + 3]);
  }

  method Setup192(t: Tables, key: seq<bv8>, subkey: array<Half>)
    requires |key| == 24 && subkey.Length > 32
    modifies subkey
    ensures TableFor(subkey[..], Schedule256(t, KeyBlock(key, 0), Kr192(key)), 32)
  {
    hide Schedule256, TableFor, Be32, Not, NotByte;
    var more := [NotByte(key[16]), NotByte(key[17]), NotByte(key[18]), NotByte(key[19]),
                 NotByte(key[20]), NotByte(key[21]), NotByte(key[22]), NotByte(key[23])];
    var kk := key + more;
    WordKept(key, more, 0); WordKept(key, more, 4); WordKept(key, more, 8); WordKept(key, more, 12);
    WordKept(key, more, 16); WordKept(key, more, 20);
    WordComplement(kk, 16, 24); WordComplement(kk, 20, 28);
    Setup256(t, kk, subkey);
  }
}
