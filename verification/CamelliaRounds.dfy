/** camellia_do_encrypt and camellia_do_decrypt: the round code that only works with the
    table of rewritten subkeys, and the proof that the rewriting preserves meaning. */
module CamelliaRounds {
  import opened Words
  import opened CamelliaCipher

  // ----- the block as the caller's buffer of four words

  function Load(io: seq<Word>): Block
    requires |io| == 4
  {
    Block(Half(io[0], io[1]), Half(io[2], io[3]))
  }

  // ----- the round code as functions of the key table

  /** Two CAMELLIA_ROUNDSM steps, keyed by x and then by y. */
  function Pair(t: Tables, x: Half, y: Half, s: Block): Block
  {
    var b := RoundSm(t, s.a, x, s.b);
    Block(RoundSm(t, b, y, s.a), b)
  }

  function Six(t: Tables, tab: seq<Half>, i: nat, s: Block): Block
    requires i + 5 < |tab|
  {
    Pair(t, tab[i + 4], tab[i + 5], Pair(t, tab[i + 2], tab[i + 3], Pair(t, tab[i], tab[i + 1], s)))
  }

  function SixBack(t: Tables, tab: seq<Half>, i: nat, s: Block): Block
    requires i + 5 < |tab|
  {
    Pair(t, tab[i + 1], tab[i], Pair(t, tab[i + 3], tab[i + 2], Pair(t, tab[i + 5], tab[i + 4], s)))
  }

  /** camellia_do_encrypt; its result still has the two halves swapped. */
  function Encrypt(t: Tables, tab: seq<Half>, max: nat, m: Block): Block
    requires max == 24 || max == 32
    requires |tab| > max
  {
    var s0 := Block(Xor(m.a, tab[0]), m.b);
    var s1 := Six(t, tab, 2, s0);
    var s2 := Six(t, tab, 10, Fls(s1, tab[8], tab[9]));
    var s3 := Six(t, tab, 18, Fls(s2, tab[16], tab[17]));
    var s4 := if max == 24 then s3 else Six(t, tab, 26, Fls(s3, tab[24], tab[25]));
    Block(s4.a, Xor(s4.b, tab[max]))
  }

  /** camellia_do_decrypt; its result still has the two halves swapped. */
  function Decrypt(t: Tables, tab: seq<Half>, max: nat, c: Block): Block
    requires max == 24 || max == 32
    requires |tab| > max
  {
    var s0 := Block(Xor(c.a, tab[max]), c.b);
    var s1 := if max == 24 then s0 else Fls(SixBack(t, tab, 26, s0), tab[25], tab[24]);
    var s2 := Fls(SixBack(t, tab, 18, s1), tab[17], tab[16]);
    var s3 := Fls(SixBack(t, tab, 10, s2), tab[9], tab[8]);
    var s4 := SixBack(t, tab, 2, s3);
    Block(s4.a, Xor(s4.b, tab[0]))
  }

  // ----- the table the key setup has to produce

  /** Whether entry j of the table is a round key. */
  predicate IsRoundKey(j: nat) { 2 <= j % 8 <= 7 }

  /** What table entry j means for the subkeys k: a round key that ends F takes the key of the
      round before it off and puts the key of the round after it on, carried back through a
      layer where one lies between. kw2 shows up in the first round and kw4 in the last. */
  function EndKey(k: seq<Half>, max: nat, j: nat): Half
    requires max == 24 || max == 32
    requires |k| == max + 2
    requires j <= max && j != 1
  {
    if j == 0 then Xor(k[0], k[2])
    else if j == max then Xor(k[max], k[max - 1])
    else if j % 8 < 2 then k[j]
    else if j == 2 then Xor(k[1], k[3])
    else if j == max - 1 then Xor(k[j - 1], k[max + 1])
    else if j % 8 == 7 then Xor(k[j - 1], DiffInv(k[j + 3], k[j + 1]))
    else if j % 8 == 2 then Xor(DiffInv(k[j - 3], k[j - 1]), k[j + 1])
    else Xor(k[j - 1], k[j + 1])
  }

  function Entry(k: seq<Half>, max: nat, j: nat): Half
    requires max == 24 || max == 32
    requires |k| == max + 2
    requires j <= max && j != 1
  {
    if IsRoundKey(j) then InverseHalfP(EndKey(k, max, j)) else EndKey(k, max, j)
  }

  ghost predicate TableFor(tab: seq<Half>, k: seq<Half>, max: nat)
  {
    && (max == 24 || max == 32)
    && |k| == max + 2
    && |tab| > max
    && forall j | 0 <= j <= max && j != 1 :: tab[j] == Entry(k, max, j)
  }

  // ----- meaning preservation

  /** The textbook state is the optimised one with the differences da and db on its halves. */
  ghost predicate Differ(ref: Block, s: Block, da: Half, db: Half)
  {
    ref.a == Xor(s.a, da) && ref.b == Xor(s.b, db)
  }

  lemma OneRound(t: Tables, x: Half, k: Half, y: Half, db: Half, e: Half)
    ensures Xor(Xor(y, db), F(t, Xor(x, k), k)) == Xor(RoundSm(t, x, InverseHalfP(e), y), Xor(db, e))
  {
    hide Xor, F, RoundSm, LastHalfP, InverseHalfP;
    KeyAtInput(t, x, k);
    RoundSmIsF(t, x, InverseHalfP(e), y);
    InverseHalfPInverts(e);
    var f := F(t, x, Zero);
    XorAssoc(y, f, e);
    XorCross(Xor(y, f), e, db, e);
    XorBack(e, Xor(Xor(y, f), db));
    XorComm(db, e); XorAssoc(Xor(y, f), e, Xor(e, db)); XorBack(e, db);
    XorAssoc(y, db, f); XorComm(db, f); XorAssoc(y, f, db);
  }

  lemma OnePair(t: Tables, k: seq<Half>, i: nat, ref: Block, s: Block, db: Half, e: Half, e': Half)
    requires i + 1 < |k|
    requires Differ(ref, s, k[i], db)
    requires Xor(db, e) == k[i + 1]
    ensures Differ(RefPair(t, k, i, ref), Pair(t, InverseHalfP(e), InverseHalfP(e'), s),
                   Xor(k[i], e'), k[i + 1])
  {
    hide Xor, F, RoundSm, InverseHalfP;
    OneRound(t, s.a, k[i], s.b, db, e);
    var b := RoundSm(t, s.a, InverseHalfP(e), s.b);
    OneRound(t, b, k[i + 1], s.a, k[i], e');
  }

  /** Between its ends, a group of six rounds has plain differences as table keys. */
  lemma InnerKeys(k: seq<Half>, max: nat, tab: seq<Half>, i: nat)
    requires TableFor(tab, k, max)
    requires i % 8 == 2 && i + 5 < max
    ensures tab[i] == InverseHalfP(EndKey(k, max, i))
    ensures tab[i + 5] == InverseHalfP(EndKey(k, max, i + 5))
    ensures forall j | i < j < i + 5 :: tab[j] == InverseHalfP(Xor(k[j - 1], k[j + 1]))
  {
    hide Xor, DiffInv, InverseHalfP;
    forall j | i < j < i + 5
      ensures tab[j] == InverseHalfP(Xor(k[j - 1], k[j + 1]))
    {
      assert tab[j] == Entry(k, max, j);
    }
    assert tab[i] == Entry(k, max, i);
    assert tab[i + 5] == Entry(k, max, i + 5);
  }

  lemma SixRounds(t: Tables, k: seq<Half>, max: nat, tab: seq<Half>, i: nat, ref: Block, s: Block, db: Half)
    requires TableFor(tab, k, max)
    requires i % 8 == 2 && i + 5 < max
    requires Differ(ref, s, k[i], db)
    requires Xor(db, EndKey(k, max, i)) == k[i + 1]
    ensures Differ(RefSix(t, k, i, ref), Six(t, tab, i, s), Xor(k[i + 4], EndKey(k, max, i + 5)), k[i + 5])
  {
    hide Xor, RefPair, Pair, InverseHalfP, EndKey, Entry;
    InnerKeys(k, max, tab, i);
    hide TableFor;
    OnePair(t, k, i, ref, s, db, EndKey(k, max, i), Xor(k[i], k[i + 2]));
    XorBack(k[i], k[i + 2]);
    XorBack(k[i + 1], k[i + 3]);
    var ref1, s1 := RefPair(t, k, i, ref), Pair(t, tab[i], tab[i + 1], s);
    OnePair(t, k, i + 2, ref1, s1, k[i + 1], Xor(k[i + 1], k[i + 3]), Xor(k[i + 2], k[i + 4]));
    XorBack(k[i + 2], k[i + 4]);
    XorBack(k[i + 3], k[i + 5]);
    var ref2, s2 := RefPair(t, k, i + 2, ref1), Pair(t, tab[i + 2], tab[i + 3], s1);
    OnePair(t, k, i + 4, ref2, s2, k[i + 3], Xor(k[i + 3], k[i + 5]), EndKey(k, max, i + 5));
  }

  lemma OneLayer(k: seq<Half>, max: nat, tab: seq<Half>, i: nat, ref: Block, s: Block)
    requires TableFor(tab, k, max)
    requires i % 8 == 0 && 0 < i < max
    requires Differ(ref, s, Xor(k[i - 2], EndKey(k, max, i - 1)), k[i - 1])
    ensures Differ(RefLayer(k, i, ref), Fls(s, tab[i], tab[i + 1]), k[i + 2], DiffInv(k[i - 1], k[i + 1]))
    ensures Xor(DiffInv(k[i - 1], k[i + 1]), EndKey(k, max, i + 2)) == k[i + 3]
  {
    hide Xor, FL, FLinv, Fls, Diff, DiffInv, InverseHalfP;
    assert tab[i] == k[i] && tab[i + 1] == k[i + 1];
    FlsIsBothLayers(s, k[i], k[i + 1]);
    var d := DiffInv(k[i + 2], k[i]);
    XorBack(k[i - 2], d);
    FLMovesDifference(s.a, d, k[i]);
    DiffUndoesDiffInv(k[i + 2], k[i]);
    FLinvMovesDifference(s.b, k[i - 1], k[i + 1]);
    XorBack(DiffInv(k[i - 1], k[i + 1]), k[i + 3]);
  }

  lemma Whiten(m: Block, k: seq<Half>, max: nat)
    requires max == 24 || max == 32
    requires |k| == max + 2
    ensures Differ(Block(Xor(m.a, k[0]), Xor(m.b, k[1])), Block(Xor(m.a, EndKey(k, max, 0)), m.b), k[2], k[1])
    ensures Xor(k[1], EndKey(k, max, 2)) == k[3]
  {
    hide Xor;
    XorAssoc(m.a, Xor(k[0], k[2]), k[2]);
    XorBack(k[2], k[0]);
    XorBack(k[1], k[3]);
  }

  lemma LastWhitening(ref: Block, s: Block, k: seq<Half>, max: nat)
    requires max == 24 || max == 32
    requires |k| == max + 2
    requires Differ(ref, s, Xor(k[max - 2], EndKey(k, max, max - 1)), k[max - 1])
    ensures Block(Xor(ref.b, k[max]), Xor(ref.a, k[max + 1])) == Block(Xor(s.b, EndKey(k, max, max)), s.a)
  {
    hide Xor;
    XorBack(k[max - 2], k[max + 1]);
    XorBack(k[max + 1], s.a);
    XorAssoc(s.b, k[max - 1], k[max]);
    XorComm(k[max - 1], k[max]);
  }

  /** On a table made for k, the round code followed by the caller's half swap is textbook
      Camellia under k, for every block, both sizes and any SP tables. */
  lemma EncryptIsTextbook(t: Tables, k: seq<Half>, max: nat, tab: seq<Half>, m: Block)
    requires TableFor(tab, k, max)
    ensures Swap(Encrypt(t, tab, max, m)) == Textbook(t, k, max, m)
  {
    hide Xor, RefSix, Six, RefLayer, Fls, InverseHalfP, DiffInv;
    Whiten(m, k, max);
    assert tab[0] == EndKey(k, max, 0);
    var r0, s0 := Block(Xor(m.a, k[0]), Xor(m.b, k[1])), Block(Xor(m.a, tab[0]), m.b);
    SixRounds(t, k, max, tab, 2, r0, s0, k[1]);
    var r1, s1 := RefSix(t, k, 2, r0), Six(t, tab, 2, s0);
    OneLayer(k, max, tab, 8, r1, s1);
    var r1', s1' := RefLayer(k, 8, r1), Fls(s1, tab[8], tab[9]);
    SixRounds(t, k, max, tab, 10, r1', s1', DiffInv(k[7], k[9]));
    var r2, s2 := RefSix(t, k, 10, r1'), Six(t, tab, 10, s1');
    OneLayer(k, max, tab, 16, r2, s2);
    var r2', s2' := RefLayer(k, 16, r2), Fls(s2, tab[16], tab[17]);
    SixRounds(t, k, max, tab, 18, r2', s2', DiffInv(k[15], k[17]));
    var r3, s3 := RefSix(t, k, 18, r2'), Six(t, tab, 18, s2');
    assert tab[max] == EndKey(k, max, max);
    if max == 24 {
      LastWhitening(r3, s3, k, max);
    } else {
      OneLayer(k, max, tab, 24, r3, s3);
      var r3', s3' := RefLayer(k, 24, r3), Fls(s3, tab[24], tab[25]);
      SixRounds(t, k, max, tab, 26, r3', s3', DiffInv(k[23], k[25]));
      LastWhitening(RefSix(t, k, 26, r3'), Six(t, tab, 26, s3'), k, max);
    }
  }

  // ----- decryption undoes encryption, whatever the table holds

  lemma PairBack(t: Tables, x: Half, y: Half, s: Block)
    ensures Pair(t, y, x, Swap(Pair(t, x, y, s))) == Swap(s)
  {
    hide Xor, F, RoundSm, LastHalfP;
    var b := RoundSm(t, s.a, x, s.b);
    var a := RoundSm(t, b, y, s.a);
    RoundSmIsF(t, s.a, x, s.b);
    RoundSmIsF(t, b, y, s.a);
    RoundSmIsF(t, b, y, a);
    RoundSmIsF(t, s.a, x, b);
    XorBack(Xor(F(t, b, Zero), LastHalfP(y)), s.a);
    XorBack(Xor(F(t, s.a, Zero), LastHalfP(x)), s.b);
  }

  lemma SixBackUndoes(t: Tables, tab: seq<Half>, i: nat, s: Block)
    requires i + 5 < |tab|
    ensures SixBack(t, tab, i, Swap(Six(t, tab, i, s))) == Swap(s)
  {
    hide Pair;
    var s1 := Pair(t, tab[i], tab[i + 1], s);
    var s2 := Pair(t, tab[i + 2], tab[i + 3], s1);
    PairBack(t, tab[i], tab[i + 1], s);
    PairBack(t, tab[i + 2], tab[i + 3], s1);
    PairBack(t, tab[i + 4], tab[i + 5], s2);
  }

  lemma SixUndoesBack(t: Tables, tab: seq<Half>, i: nat, s: Block)
    requires i + 5 < |tab|
    ensures Six(t, tab, i, Swap(SixBack(t, tab, i, s))) == Swap(s)
  {
    hide Pair;
    var s1 := Pair(t, tab[i + 5], tab[i + 4], s);
    var s2 := Pair(t, tab[i + 3], tab[i + 2], s1);
    PairBack(t, tab[i + 5], tab[i + 4], s);
    PairBack(t, tab[i + 3], tab[i + 2], s1);
    PairBack(t, tab[i + 1], tab[i], s2);
  }

  lemma FlsBack(s: Block, kl: Half, kr: Half)
    ensures Fls(Swap(Fls(s, kl, kr)), kr, kl) == Swap(s)
  {
    hide Fls, FL, FLinv;
    FlsIsBothLayers(s, kl, kr);
    FlsIsBothLayers(Swap(Fls(s, kl, kr)), kr, kl);
    LayersAreInverse(s.a, kl);
    LayersAreInverse(s.b, kr);
  }

  /** Both with the caller's half swap: decryption undoes encryption. */
  lemma DecryptUndoesEncrypt(t: Tables, tab: seq<Half>, max: nat, m: Block)
    requires max == 24 || max == 32
    requires |tab| > max
    ensures Swap(Decrypt(t, tab, max, Swap(Encrypt(t, tab, max, m)))) == m
  {
    hide Xor, Six, SixBack, Fls;
    var s0 := Block(Xor(m.a, tab[0]), m.b);
    var s1 := Six(t, tab, 2, s0);
    var s1' := Fls(s1, tab[8], tab[9]);
    var s2 := Six(t, tab, 10, s1');
    var s2' := Fls(s2, tab[16], tab[17]);
    var s3 := Six(t, tab, 18, s2');
    SixBackUndoes(t, tab, 2, s0);
    FlsBack(s1, tab[8], tab[9]);
    SixBackUndoes(t, tab, 10, s1');
    FlsBack(s2, tab[16], tab[17]);
    SixBackUndoes(t, tab, 18, s2');
    XorBack(tab[0], m.a);
    if max == 24 {
      XorBack(tab[max], s3.b);
    } else {
      var s3' := Fls(s3, tab[24], tab[25]);
      var s4 := Six(t, tab, 26, s3');
      FlsBack(s3, tab[24], tab[25]);
      SixBackUndoes(t, tab, 26, s3');
      XorBack(tab[max], s4.b);
    }
  }

  /** And the other way round, so both are bijections on blocks. */
  lemma EncryptUndoesDecrypt(t: Tables, tab: seq<Half>, max: nat, c: Block)
    requires max == 24 || max == 32
    requires |tab| > max
    ensures Swap(Encrypt(t, tab, max, Swap(Decrypt(t, tab, max, c)))) == c
  {
    hide Xor, Six, SixBack, Fls;
    var s0 := Block(Xor(c.a, tab[max]), c.b);
    XorBack(tab[max], c.a);
    var s1 := s0;
    if max == 32 {
      SixUndoesBack(t, tab, 26, s0);
      FlsBack(SixBack(t, tab, 26, s0), tab[25], tab[24]);
      s1 := Fls(SixBack(t, tab, 26, s0), tab[25], tab[24]);
    }
    SixUndoesBack(t, tab, 18, s1);
    FlsBack(SixBack(t, tab, 18, s1), tab[17], tab[16]);
    var s2 := Fls(SixBack(t, tab, 18, s1), tab[17], tab[16]);
    SixUndoesBack(t, tab, 10, s2);
    FlsBack(SixBack(t, tab, 10, s2), tab[9], tab[8]);
    var s3 := Fls(SixBack(t, tab, 10, s2), tab[9], tab[8]);
    SixUndoesBack(t, tab, 2, s3);
    XorBack(tab[0], SixBack(t, tab, 2, s3).b);
  }

  // ----- the source's methods, which work on the caller's buffer in place

  /** CAMELLIA_ROUNDSM on io[x..x + 2] and io[y..y + 2]. */
  method RoundInPlace(t: Tables, io: array<Word>, x: nat, y: nat, k: Half)
    requires io.Length == 4
    requires (x == 0 && y == 2) || (x == 2 && y == 0)
    modifies io
    ensures Load(io[..]) == old(var s := Load(io[..]);
              if x == 0 then Block(s.a, RoundSm(t, s.a, k, s.b)) else Block(RoundSm(t, s.b, k, s.a), s.b))
  {
    hide X, SumL, SumR, Ror8;
    var ir := SumR(t, io[x + 1]);
    var il := SumL(t, io[x]);
    il := X(il, k.l);
    ir := X(ir, X(il, k.r));
    io[y] := X(io[y], ir);
    io[y + 1] := X(io[y + 1], X(Ror8(il), ir));
  }

  method PairInPlace(t: Tables, io: array<Word>, x: Half, y: Half)
    requires io.Length == 4
    modifies io
    ensures Load(io[..]) == old(Pair(t, x, y, Load(io[..])))
  {
    hide RoundSm;
    RoundInPlace(t, io, 0, 2, x);
    RoundInPlace(t, io, 2, 0, y);
  }

  /** CAMELLIA_FLS on the whole buffer. */
  method FlsInPlace(io: array<Word>, kl: Half, kr: Half)
    requires io.Length == 4
    modifies io
    ensures Load(io[..]) == old(Fls(Load(io[..]), kl, kr))
  {
    hide X, And, Or, Rol1;
    var t0 := And(kl.l, io[0]);
    var t2 := Or(kr.r, io[3]);
    io[2] := X(io[2], t2);
    io[1] := X(io[1], Rol1(t0));
    var t3 := And(kr.l, io[2]);
    var t1 := Or(kl.r, io[1]);
    io[0] := X(io[0], t1);
    io[3] := X(io[3], Rol1(t3));
  }

  /** The whitening xor into io[x..x + 2]. */
  method WhitenInPlace(io: array<Word>, x: nat, k: Half)
    requires io.Length == 4
    requires x == 0 || x == 2
    modifies io
    ensures Load(io[..]) == old(var s := Load(io[..]);
              if x == 0 then Block(Xor(s.a, k), s.b) else Block(s.a, Xor(s.b, k)))
  {
    hide X;
    io[x] := X(io[x], k.l);
    io[x + 1] := X(io[x + 1], k.r);
  }

  /** ROUNDS(i - 2) of camellia_do_encrypt. */
  method SixInPlace(t: Tables, subkey: array<Half>, io: array<Word>, i: nat)
    requires io.Length == 4 && i + 5 < subkey.Length
    modifies io
    ensures Load(io[..]) == old(Six(t, subkey[..], i, Load(io[..])))
  {
    hide Pair, Load;
    PairInPlace(t, io, subkey[i], subkey[i + 1]);
    PairInPlace(t, io, subkey[i + 2], subkey[i + 3]);
    PairInPlace(t, io, subkey[i + 4], subkey[i + 5]);
  }

  /** ROUNDS(i - 2) of camellia_do_decrypt. */
  method SixBackInPlace(t: Tables, subkey: array<Half>, io: array<Word>, i: nat)
    requires io.Length == 4 && i + 5 < subkey.Length
    modifies io
    ensures Load(io[..]) == old(SixBack(t, subkey[..], i, Load(io[..])))
  {
    hide Pair, Load;
    PairInPlace(t, io, subkey[i + 5], subkey[i + 4]);
    PairInPlace(t, io, subkey[i + 3], subkey[i + 2]);
    PairInPlace(t, io, subkey[i + 1], subkey[i]);
  }

  method DoEncrypt(t: Tables, subkey: array<Half>, io: array<Word>, max: nat)
    requires max == 24 || max == 32
    requires subkey.Length > max && io.Length == 4
    modifies io
    ensures Load(io[..]) == old(Encrypt(t, subkey[..], max, Load(io[..])))
    ensures forall k: seq<Half> | |k| == max + 2 && TableFor(subkey[..], k, max) ::
              Swap(Load(io[..])) == Textbook(t, k, max, old(Load(io[..])))
  {
    hide Xor, Six, Fls, Load, Textbook, TableFor;
    ghost var m, tab := Load(io[..]), subkey[..];
    WhitenInPlace(io, 0, subkey[0]);
    SixInPlace(t, subkey, io, 2);
    FlsInPlace(io, subkey[8], subkey[9]);
    SixInPlace(t, subkey, io, 10);
    FlsInPlace(io, subkey[16], subkey[17]);
    SixInPlace(t, subkey, io, 18);
    if max == 32 {
      FlsInPlace(io, subkey[24], subkey[25]);
      SixInPlace(t, subkey, io, 26);
    }
    WhitenInPlace(io, 2, subkey[max]);
    forall k: seq<Half> | |k| == max + 2 && TableFor(tab, k, max)
      ensures Swap(Encrypt(t, tab, max, m)) == Textbook(t, k, max, m)
    {
      EncryptIsTextbook(t, k, max, tab, m);
    }
  }

  method DoDecrypt(t: Tables, subkey: array<Half>, io: array<Word>, max: nat)
    requires max == 24 || max == 32
    requires subkey.Length > max && io.Length == 4
    modifies io
    ensures Load(io[..]) == old(Decrypt(t, subkey[..], max, Load(io[..])))
  {
    hide Xor, SixBack, Fls, Load;
    WhitenInPlace(io, 0, subkey[max]);
    if max == 32 {
      SixBackInPlace(t, subkey, io, 26);
      FlsInPlace(io, subkey[25], subkey[24]);
    }
    SixBackInPlace(t, subkey, io, 18);
    FlsInPlace(io, subkey[17], subkey[16]);
    SixBackInPlace(t, subkey, io, 10);
    FlsInPlace(io, subkey[9], subkey[8]);
    SixBackInPlace(t, subkey, io, 2);
    WhitenInPlace(io, 2, subkey[0]);
  }
}
