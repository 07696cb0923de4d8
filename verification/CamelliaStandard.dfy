/** Camellia as RFC 3713 writes it down: the F-function byte by byte (section 2.4.1), the layers
    (sections 2.4.2 and 2.4.3), and encryption with the subkeys by their names (section 2.3). */
module CamelliaStandard {
  import opened Words
  import opened CamelliaCipher
  import opened CamelliaRotations
  import opened CamelliaKeys
  import opened Camellia

  /** The four S-boxes. They are arbitrary. */
  datatype Sboxes = Sboxes(s1: bv8 -> bv8, s2: bv8 -> bv8, s3: bv8 -> bv8, s4: bv8 -> bv8)

  /** An SP table has an S-box three times in a word; its name says where. */
  function TablesOf(s: Sboxes): Tables {
    Tables(x => FromBytes(s.s1(x), s.s1(x), s.s1(x), 0),
           x => FromBytes(0, s.s2(x), s.s2(x), s.s2(x)),
           x => FromBytes(s.s3(x), 0, s.s3(x), s.s3(x)),
           x => FromBytes(s.s4(x), s.s4(x), 0, s.s4(x)))
  }

  function Xb(a: bv8, b: bv8): bv8 { a ^ b }

  function Xor5(a: bv8, b: bv8, c: bv8, d: bv8, e: bv8): bv8 { Xb(Xb(Xb(Xb(a, b), c), d), e) }

  function Xor6(a: bv8, b: bv8, c: bv8, d: bv8, e: bv8, f: bv8): bv8 { Xb(Xor5(a, b, c, d, e), f) }

  /** The P-function: the bytes y1 to y8 of t1 to t8. */
  function P(t1: bv8, t2: bv8, t3: bv8, t4: bv8, t5: bv8, t6: bv8, t7: bv8, t8: bv8): Half {
    Half(FromBytes(Xor6(t1, t3, t4, t6, t7, t8), Xor6(t1, t2, t4, t5, t7, t8),
                   Xor6(t1, t2, t3, t5, t6, t8), Xor6(t2, t3, t4, t5, t6, t7)),
         FromBytes(Xor5(t1, t2, t6, t7, t8), Xor5(t2, t3, t5, t7, t8),
                   Xor5(t3, t4, t5, t6, t8), Xor5(t1, t4, t5, t6, t7)))
  }

  /** The standard's F: the key is added, each byte goes through its S-box, and P mixes them. */
  function StandardF(s: Sboxes, x: Half, k: Half): Half {
    var l, r := X(x.l, k.l), X(x.r, k.r);
    P(s.s1(ByteAt(l, 1)), s.s2(ByteAt(l, 2)), s.s3(ByteAt(l, 3)), s.s4(ByteAt(l, 4)),
      s.s2(ByteAt(r, 1)), s.s3(ByteAt(r, 2)), s.s4(ByteAt(r, 3)), s.s1(ByteAt(r, 4)))
  }

  lemma XOfBytes(a: bv8, b: bv8, c: bv8, d: bv8, e: bv8, f: bv8, g: bv8, h: bv8)
    ensures X(FromBytes(a, b, c, d), FromBytes(e, f, g, h)) == FromBytes(Xb(a, e), Xb(b, f), Xb(c, g), Xb(d, h))
  {}

  lemma Ror8OfBytes(a: bv8, b: bv8, c: bv8, d: bv8)
    ensures Ror8(FromBytes(a, b, c, d)) == FromBytes(d, a, b, c)
  {}

  lemma XbZero(a: bv8, b: bv8, c: bv8)
    ensures Xb(Xb(Xb(0, a), b), c) == Xb(Xb(a, b), c)
    ensures Xb(Xb(Xb(a, 0), b), c) == Xb(Xb(a, b), c)
    ensures Xb(Xb(Xb(a, b), 0), c) == Xb(Xb(a, b), c)
    ensures Xb(Xb(Xb(a, b), c), 0) == Xb(Xb(a, b), c)
  {}

  /** Each S-box reaches three of the four bytes. */
  lemma FourTables(a: bv8, b: bv8, c: bv8, d: bv8)
    ensures X(X(X(FromBytes(a, a, a, 0), FromBytes(0, b, b, b)), FromBytes(c, 0, c, c)), FromBytes(d, d, 0, d))
         == FromBytes(Xb(Xb(a, c), d), Xb(Xb(a, b), d), Xb(Xb(a, b), c), Xb(Xb(b, c), d))
  {
    hide X, Xb, FromBytes;
    XOfBytes(a, a, a, 0, 0, b, b, b);
    XOfBytes(Xb(a, 0), Xb(a, b), Xb(a, b), Xb(0, b), c, 0, c, c);
    XOfBytes(Xb(Xb(a, 0), c), Xb(Xb(a, b), 0), Xb(Xb(a, b), c), Xb(Xb(0, b), c), d, d, 0, d);
    XbZero(a, c, d); XbZero(a, b, d); XbZero(a, b, c); XbZero(b, c, d);
  }

  lemma SumLIs(s: Sboxes, x: Word)
    ensures var a, b, c, d := s.s1(ByteAt(x, 1)), s.s2(ByteAt(x, 2)), s.s3(ByteAt(x, 3)), s.s4(ByteAt(x, 4));
            SumL(TablesOf(s), x) == FromBytes(Xb(Xb(a, c), d), Xb(Xb(a, b), d), Xb(Xb(a, b), c), Xb(Xb(b, c), d))
  {
    hide X, Xb, FromBytes, Byte;
    FourTables(s.s1(ByteAt(x, 1)), s.s2(ByteAt(x, 2)), s.s3(ByteAt(x, 3)), s.s4(ByteAt(x, 4)));
  }

  lemma SumRIs(s: Sboxes, x: Word)
    ensures var a, b, c, d := s.s1(ByteAt(x, 4)), s.s2(ByteAt(x, 1)), s.s3(ByteAt(x, 2)), s.s4(ByteAt(x, 3));
            SumR(TablesOf(s), x) == FromBytes(Xb(Xb(a, c), d), Xb(Xb(a, b), d), Xb(Xb(a, b), c), Xb(Xb(b, c), d))
  {
    hide X, Xb, FromBytes, Byte;
    assert ByteAt(x, 1) == Byte(x >> 24) && ByteAt(x, 2) == Byte(x >> 16) && ByteAt(x, 3) == Byte(x >> 8);
    hide ByteAt;
    FourTables(s.s1(ByteAt(x, 4)), s.s2(ByteAt(x, 1)), s.s3(ByteAt(x, 2)), s.s4(ByteAt(x, 3)));
  }

  // ----- regrouping byte sums

  lemma XbComm(a: bv8, b: bv8)
    ensures Xb(a, b) == Xb(b, a)
  {}

  lemma XbAssoc(a: bv8, b: bv8, c: bv8)
    ensures Xb(Xb(a, b), c) == Xb(a, Xb(b, c))
  {
    assert (a ^ b) ^ c == a ^ (b ^ c);
  }

  lemma XbBack(a: bv8, b: bv8)
    ensures Xb(a, Xb(a, b)) == b && Xb(Xb(a, b), b) == a
  {}

  lemma XbThree(p: bv8, a: bv8, b: bv8, c: bv8)
    ensures Xb(p, Xb(Xb(a, b), c)) == Xb(Xb(Xb(p, a), b), c)
  {
    hide Xb;
    XbAssoc(p, Xb(a, b), c); XbAssoc(p, a, b);
  }

  /** Three bytes of one word and three of the other. */
  lemma Regroup(a: bv8, b: bv8, c: bv8, d: bv8, e: bv8, f: bv8)
    ensures Xb(Xb(Xb(f, d), e), Xb(Xb(a, b), c)) == Xor6(a, b, c, d, e, f)
    ensures Xb(Xb(Xb(d, e), f), Xb(Xb(a, b), c)) == Xor6(a, b, c, d, e, f)
  {
    hide Xb;
    var p := Xb(Xb(a, b), c);
    XbComm(Xb(Xb(d, e), f), p); XbThree(p, d, e, f);
    XbAssoc(f, d, e); XbComm(f, Xb(d, e));
  }

  /** Two terms that both sums have drop out. */
  lemma Drop(a: bv8, b: bv8, c: bv8, d: bv8)
    ensures Xb(Xb(Xb(b, c), d), Xb(Xb(a, c), d)) == Xb(a, b)
    ensures Xb(Xb(Xb(c, b), d), Xb(Xb(c, a), d)) == Xb(a, b)
    ensures Xb(Xb(Xb(c, d), b), Xb(Xb(c, d), a)) == Xb(a, b)
    ensures Xb(Xb(Xb(a, c), d), Xb(Xb(c, d), b)) == Xb(a, b)
  {
    hide Xb;
    var e := Xb(c, d);
    XbComm(a, b); XbComm(a, c); XbComm(b, c);
    XbAssoc(a, c, d); XbAssoc(b, c, d); XbComm(b, e); XbComm(a, e);
    XbAssoc(Xb(b, e), e, a); XbBack(b, e); XbAssoc(Xb(a, e), e, b); XbBack(a, e);
  }

  lemma Behind(v: bv8, q: bv8, a: bv8, b: bv8, c: bv8)
    ensures Xb(v, Xb(Xb(Xb(q, a), b), c)) == Xb(Xb(Xb(Xb(v, q), a), b), c)
  {
    hide Xb;
    XbThree(v, Xb(q, a), b, c); XbAssoc(v, q, a);
  }

  lemma Cancel(t1: bv8, t2: bv8, t3: bv8, t4: bv8, t5: bv8, t6: bv8, t7: bv8, t8: bv8)
    ensures Xb(Xb(Xb(t2, t3), t4), Xor6(t1, t3, t4, t6, t7, t8)) == Xor5(t1, t2, t6, t7, t8)
    ensures Xb(Xb(Xb(t1, t3), t4), Xor6(t1, t2, t4, t5, t7, t8)) == Xor5(t2, t3, t5, t7, t8)
    ensures Xb(Xb(Xb(t1, t2), t4), Xor6(t1, t2, t3, t5, t6, t8)) == Xor5(t3, t4, t5, t6, t8)
    ensures Xb(Xb(Xb(t1, t2), t3), Xor6(t2, t3, t4, t5, t6, t7)) == Xor5(t1, t4, t5, t6, t7)
  {
    hide Xb;
    Drop(t1, t2, t3, t4); Behind(Xb(Xb(t2, t3), t4), Xb(Xb(t1, t3), t4), t6, t7, t8);
    Drop(t2, t3, t1, t4); Behind(Xb(Xb(t1, t3), t4), Xb(Xb(t1, t2), t4), t5, t7, t8);
    Drop(t3, t4, t1, t2); Behind(Xb(Xb(t1, t2), t4), Xb(Xb(t1, t2), t3), t5, t6, t8);
    Drop(t1, t4, t2, t3); Behind(Xb(Xb(t1, t2), t3), Xb(Xb(t2, t3), t4), t5, t6, t7);
  }

  /** CAMELLIA_F on SP tables made from the S-boxes is the F-function of the standard. */
  lemma FIsStandard(s: Sboxes, x: Half, k: Half)
    ensures F(TablesOf(s), x, k) == StandardF(s, x, k)
  {
    hide X, Xb, FromBytes, Byte, ByteAt, Ror8, SumL, SumR, Xor5, Xor6, TablesOf;
    var l, r := X(x.l, k.l), X(x.r, k.r);
    var t1, t2, t3, t4 := s.s1(ByteAt(l, 1)), s.s2(ByteAt(l, 2)), s.s3(ByteAt(l, 3)), s.s4(ByteAt(l, 4));
    var t5, t6, t7, t8 := s.s2(ByteAt(r, 1)), s.s3(ByteAt(r, 2)), s.s4(ByteAt(r, 3)), s.s1(ByteAt(r, 4));
    SumLIs(s, l);
    SumRIs(s, r);
    var v1, v2, v3, v4 := Xb(Xb(t1, t3), t4), Xb(Xb(t1, t2), t4), Xb(Xb(t1, t2), t3), Xb(Xb(t2, t3), t4);
    var u1, u2, u3, u4 := Xb(Xb(t8, t6), t7), Xb(Xb(t8, t5), t7), Xb(Xb(t8, t5), t6), Xb(Xb(t5, t6), t7);
    XOfBytes(u1, u2, u3, u4, v1, v2, v3, v4);
    Regroup(t1, t3, t4, t6, t7, t8); Regroup(t1, t2, t4, t5, t7, t8);
    Regroup(t1, t2, t3, t5, t6, t8); Regroup(t2, t3, t4, t5, t6, t7);
    Ror8OfBytes(v1, v2, v3, v4);
    var y1, y2, y3, y4 := Xb(u1, v1), Xb(u2, v2), Xb(u3, v3), Xb(u4, v4);
    XOfBytes(v4, v1, v2, v3, y1, y2, y3, y4);
    Cancel(t1, t2, t3, t4, t5, t6, t7, t8);
  }

  // ----- the layers

  function TurnedByOne(x: Word): Word { x.RotateLeft(1) }

  function StandardFL(x: Half, k: Half): Half {
    var x2 := X(x.r, TurnedByOne(And(x.l, k.l)));
    Half(X(x.l, Or(x2, k.r)), x2)
  }

  function StandardFLinv(y: Half, k: Half): Half {
    var y1 := X(y.l, Or(y.r, k.r));
    Half(y1, X(y.r, TurnedByOne(And(y1, k.l))))
  }

  lemma Rol1Turns(x: Word)
    ensures Rol1(x) == TurnedByOne(x)
  {}

  lemma LayersAreStandard(x: Half, k: Half)
    ensures FL(x, k) == StandardFL(x, k) && FLinv(x, k) == StandardFLinv(x, k)
  {
    hide X, And, Or, Rol1, TurnedByOne;
    Rol1Turns(And(x.l, k.l));
    Rol1Turns(And(FLinv(x, k).l, k.l));
  }

  // ----- section 2.3, with kw1 to kw4, k1 to k24 in groups of six, and ke1 to ke6 in pairs

  datatype Named = Named(kw1: Half, kw2: Half, kw3: Half, kw4: Half, k: seq<seq<Half>>, ke: seq<Block>)

  /** The subkeys for a number of groups of six rounds. */
  predicate Complete(n: Named, groups: nat) { |n.k| == groups == |n.ke| + 1 }

  /** Rounds change D2 and D1 in turn. */
  function StandardRounds(s: Sboxes, ks: seq<Half>, d: Block): Block
    decreases |ks|
  {
    if |ks| < 2 then d
    else
      var d2 := Xor(d.b, StandardF(s, d.a, ks[0]));
      StandardRounds(s, ks[2..], Block(Xor(d.a, StandardF(s, d2, ks[1])), d2))
  }

  /** From group g on: six rounds, and the layers before each further group. */
  function StandardGroups(s: Sboxes, n: Named, groups: nat, g: nat, d: Block): Block
    requires Complete(n, groups) && g < groups
    decreases groups - g
  {
    var d' := StandardRounds(s, n.k[g], d);
    if g + 1 == groups then d'
    else StandardGroups(s, n, groups, g + 1, Block(StandardFL(d'.a, n.ke[g].a), StandardFLinv(d'.b, n.ke[g].b)))
  }

  function StandardCipher(s: Sboxes, n: Named, groups: nat, m: Block): Block
    requires Complete(n, groups)
  {
    var d := StandardGroups(s, n, groups, 0, Block(Xor(m.a, n.kw1), Xor(m.b, n.kw2)));
    Block(Xor(d.b, n.kw3), Xor(d.a, n.kw4))
  }

  // ----- the source's order of subkeys

  /** Where the source keeps the subkeys: each group of six round keys behind two layer keys, which for
      the first group are kw1 and kw2. */
  ghost predicate InSourceOrder(n: Named, groups: nat, k: seq<Half>) {
    && Complete(n, groups) && |k| == 8 * groups + 2
    && k[0] == n.kw1 && k[1] == n.kw2 && k[8 * groups] == n.kw3 && k[8 * groups + 1] == n.kw4
    && (forall g | 0 <= g < groups :: GroupInOrder(n, groups, k, g))
  }

  ghost predicate GroupInOrder(n: Named, groups: nat, k: seq<Half>, g: nat)
    requires Complete(n, groups) && |k| == 8 * groups + 2 && g < groups
  {
    && k[8 * g + 2..8 * g + 8] == n.k[g]
    && (g > 0 ==> k[8 * g] == n.ke[g - 1].a && k[8 * g + 1] == n.ke[g - 1].b)
  }

  lemma PairIsStandard(s: Sboxes, k: seq<Half>, i: nat, d: Block)
    requires i + 1 < |k|
    ensures RefPair(TablesOf(s), k, i, d) ==
              var d2 := Xor(d.b, StandardF(s, d.a, k[i])); Block(Xor(d.a, StandardF(s, d2, k[i + 1])), d2)
  {
    hide F, StandardF, Xor, TablesOf;
    FIsStandard(s, d.a, k[i]);
    FIsStandard(s, Xor(d.b, StandardF(s, d.a, k[i])), k[i + 1]);
  }

  lemma SixIsStandard(s: Sboxes, k: seq<Half>, i: nat, d: Block)
    requires i + 5 < |k|
    ensures RefSix(TablesOf(s), k, i, d) == StandardRounds(s, k[i..i + 6], d)
  {
    hide RefPair, StandardF, Xor, TablesOf, StandardRounds;
    var ks := k[i..i + 6];
    assert ks[2..] == k[i + 2..i + 6] && ks[2..][2..] == k[i + 4..i + 6] && ks[2..][2..][2..] == [];
    var d1 := RefPair(TablesOf(s), k, i, d);
    var d2 := RefPair(TablesOf(s), k, i + 2, d1);
    var d3 := RefPair(TablesOf(s), k, i + 4, d2);
    PairIsStandard(s, k, i, d); StandardStep(s, ks, d);
    PairIsStandard(s, k, i + 2, d1); StandardStep(s, ks[2..], d1);
    PairIsStandard(s, k, i + 4, d2); StandardStep(s, ks[2..][2..], d2);
    NoRounds(s, d3);
  }

  lemma StandardStep(s: Sboxes, ks: seq<Half>, d: Block)
    requires |ks| >= 2
    ensures var d2 := Xor(d.b, StandardF(s, d.a, ks[0]));
            StandardRounds(s, ks, d) == StandardRounds(s, ks[2..], Block(Xor(d.a, StandardF(s, d2, ks[1])), d2))
  {
    hide StandardF, Xor;
  }

  lemma NoRounds(s: Sboxes, d: Block)
    ensures StandardRounds(s, [], d) == d
  {}

  /** The groups from g on, as the textbook form has them in the source's order. */
  function RefFrom(s: Sboxes, k: seq<Half>, groups: nat, g: nat, d: Block): Block
    requires g < groups && |k| == 8 * groups + 2
    decreases groups - g
  {
    var d' := RefSix(TablesOf(s), k, 8 * g + 2, d);
    if g + 1 == groups then d' else RefFrom(s, k, groups, g + 1, RefLayer(k, 8 * g + 8, d'))
  }

  lemma {:induction false} GroupsAreStandard(s: Sboxes, n: Named, groups: nat, k: seq<Half>, g: nat, d: Block)
    requires InSourceOrder(n, groups, k) && g < groups
    ensures RefFrom(s, k, groups, g, d) == StandardGroups(s, n, groups, g, d)
    decreases groups - g
  {
    hide RefSix, StandardRounds, FL, FLinv, StandardFL, StandardFLinv;
    SixIsStandard(s, k, 8 * g + 2, d);
    assert GroupInOrder(n, groups, k, g);
    if g + 1 < groups {
      var d' := StandardRounds(s, n.k[g], d);
      assert GroupInOrder(n, groups, k, g + 1);
      LayersAreStandard(d'.a, n.ke[g].a);
      LayersAreStandard(d'.b, n.ke[g].b);
      GroupsAreStandard(s, n, groups, k, g + 1, RefLayer(k, 8 * g + 8, d'));
    }
  }

  lemma TextbookIsGroups(s: Sboxes, k: seq<Half>, max: nat, m: Block)
    requires (max == 24 || max == 32) && |k| == max + 2
    ensures var d := RefFrom(s, k, max / 8, 0, Block(Xor(m.a, k[0]), Xor(m.b, k[1])));
            Textbook(TablesOf(s), k, max, m) == Block(Xor(d.b, k[max]), Xor(d.a, k[max + 1]))
  {
    hide RefSix, RefLayer, Xor, TablesOf;
    var d0 := Block(Xor(m.a, k[0]), Xor(m.b, k[1]));
    var d1 := RefLayer(k, 8, RefSix(TablesOf(s), k, 2, d0));
    var d2 := RefLayer(k, 16, RefSix(TablesOf(s), k, 10, d1));
    assert RefFrom(s, k, max / 8, 0, d0) == RefFrom(s, k, max / 8, 1, d1);
    assert RefFrom(s, k, max / 8, 1, d1) == RefFrom(s, k, max / 8, 2, d2);
    if max == 32 {
      var d3 := RefLayer(k, 24, RefSix(TablesOf(s), k, 18, d2));
      assert RefFrom(s, k, 4, 2, d2) == RefFrom(s, k, 4, 3, d3);
    }
  }

  /** On SP tables made from the S-boxes the textbook form is the standard's encryption, when the subkeys
      are in the source's order. */
  lemma TextbookIsStandard(s: Sboxes, n: Named, k: seq<Half>, max: nat, m: Block)
    requires (max == 24 || max == 32) && InSourceOrder(n, max / 8, k)
    ensures Textbook(TablesOf(s), k, max, m) == StandardCipher(s, n, max / 8, m)
  {
    hide Textbook, RefFrom, StandardGroups, Xor, GroupInOrder, TablesOf;
    var groups := max / 8;
    assert 8 * groups == max;
    TextbookIsGroups(s, k, max, m);
    GroupsAreStandard(s, n, groups, k, 0, Block(Xor(m.a, k[0]), Xor(m.b, k[1])));
  }

  // ----- section 2.2, by name

  /** Six round keys, and as three pairs. */
  function Six(a: Half, b: Half, c: Half, d: Half, e: Half, f: Half): seq<Half> { [a, b, c, d, e, f] }

  function Pairs(p: Block, q: Block, r: Block): seq<Half> { Six(p.a, p.b, q.a, q.b, r.a, r.b) }

  function Named128(kl: Block, ka: Block): Named {
    var k60 := Block(Rotated(ka, 45).a, Rotated(kl, 60).b);
    Named(Rotated(kl, 0).a, Rotated(kl, 0).b, Rotated(ka, 111).a, Rotated(ka, 111).b,
          [Pairs(Rotated(ka, 0), Rotated(kl, 15), Rotated(ka, 15)),
           Pairs(Rotated(kl, 45), k60, Rotated(ka, 60)),
           Pairs(Rotated(kl, 94), Rotated(ka, 94), Rotated(kl, 111))],
          [Rotated(ka, 30), Rotated(kl, 77)])
  }

  function Named256(kl: Block, kr: Block, ka: Block, kb: Block): Named {
    Named(Rotated(kl, 0).a, Rotated(kl, 0).b, Rotated(kb, 111).a, Rotated(kb, 111).b,
          [Pairs(Rotated(kb, 0), Rotated(kr, 15), Rotated(ka, 15)),
           Pairs(Rotated(kb, 30), Rotated(kl, 45), Rotated(ka, 45)),
           Pairs(Rotated(kr, 60), Rotated(kb, 60), Rotated(kl, 77)),
           Pairs(Rotated(kr, 94), Rotated(ka, 94), Rotated(kl, 111))],
          [Rotated(kr, 30), Rotated(kl, 60), Rotated(ka, 77)])
  }

  lemma SliceIsPairs(k: seq<Half>, i: nat, p: Block, q: Block, r: Block)
    requires i + 6 <= |k|
    requires k[i] == p.a && k[i + 1] == p.b && k[i + 2] == q.a && k[i + 3] == q.b && k[i + 4] == r.a && k[i + 5] == r.b
    ensures k[i..i + 6] == Pairs(p, q, r)
  {}

  lemma First128(kl: Block, ka: Block)
    ensures Subkeys128(kl, ka)[2..8] == Pairs(Rotated(ka, 0), Rotated(kl, 15), Rotated(ka, 15))
  {
    hide Rotated, Pairs;
    SliceIsPairs(Subkeys128(kl, ka), 2, Rotated(ka, 0), Rotated(kl, 15), Rotated(ka, 15));
  }

  lemma Second128(kl: Block, ka: Block)
    ensures Subkeys128(kl, ka)[10..16] == Pairs(Rotated(kl, 45), Block(Rotated(ka, 45).a, Rotated(kl, 60).b), Rotated(ka, 60))
  {
    hide Rotated, Pairs;
    SliceIsPairs(Subkeys128(kl, ka), 10, Rotated(kl, 45), Block(Rotated(ka, 45).a, Rotated(kl, 60).b), Rotated(ka, 60));
  }

  lemma Third128(kl: Block, ka: Block)
    ensures Subkeys128(kl, ka)[18..24] == Pairs(Rotated(kl, 94), Rotated(ka, 94), Rotated(kl, 111))
  {
    hide Rotated, Pairs;
    SliceIsPairs(Subkeys128(kl, ka), 18, Rotated(kl, 94), Rotated(ka, 94), Rotated(kl, 111));
  }

  lemma Edges128(kl: Block, ka: Block)
    ensures var k := Subkeys128(kl, ka);
            && Block(k[0], k[1]) == Rotated(kl, 0) && Block(k[8], k[9]) == Rotated(ka, 30)
            && Block(k[16], k[17]) == Rotated(kl, 77) && Block(k[24], k[25]) == Rotated(ka, 111)
  {
    hide Rotated;
  }

  lemma Named128InOrder(kl: Block, ka: Block)
    ensures InSourceOrder(Named128(kl, ka), 3, Subkeys128(kl, ka))
  {
    hide Rotated, Pairs, Subkeys128;
    Edges128(kl, ka);
    First128(kl, ka); Second128(kl, ka); Third128(kl, ka);
    var n, k := Named128(kl, ka), Subkeys128(kl, ka);
    assert GroupInOrder(n, 3, k, 0) && GroupInOrder(n, 3, k, 1) && GroupInOrder(n, 3, k, 2);
  }

  lemma First256(kl: Block, kr: Block, ka: Block, kb: Block)
    ensures Subkeys256(kl, kr, ka, kb)[2..8] == Pairs(Rotated(kb, 0), Rotated(kr, 15), Rotated(ka, 15))
  {
    hide Rotated, Pairs;
    SliceIsPairs(Subkeys256(kl, kr, ka, kb), 2, Rotated(kb, 0), Rotated(kr, 15), Rotated(ka, 15));
  }

  lemma Second256(kl: Block, kr: Block, ka: Block, kb: Block)
    ensures Subkeys256(kl, kr, ka, kb)[10..16] == Pairs(Rotated(kb, 30), Rotated(kl, 45), Rotated(ka, 45))
  {
    hide Rotated, Pairs;
    SliceIsPairs(Subkeys256(kl, kr, ka, kb), 10, Rotated(kb, 30), Rotated(kl, 45), Rotated(ka, 45));
  }

  lemma Third256(kl: Block, kr: Block, ka: Block, kb: Block)
    ensures Subkeys256(kl, kr, ka, kb)[18..24] == Pairs(Rotated(kr, 60), Rotated(kb, 60), Rotated(kl, 77))
  {
    hide Rotated, Pairs;
    SliceIsPairs(Subkeys256(kl, kr, ka, kb), 18, Rotated(kr, 60), Rotated(kb, 60), Rotated(kl, 77));
  }

  lemma Fourth256(kl: Block, kr: Block, ka: Block, kb: Block)
    ensures Subkeys256(kl, kr, ka, kb)[26..32] == Pairs(Rotated(kr, 94), Rotated(ka, 94), Rotated(kl, 111))
  {
    hide Rotated, Pairs;
    SliceIsPairs(Subkeys256(kl, kr, ka, kb), 26, Rotated(kr, 94), Rotated(ka, 94), Rotated(kl, 111));
  }

  lemma Edges256(kl: Block, kr: Block, ka: Block, kb: Block)
    ensures var k := Subkeys256(kl, kr, ka, kb);
            && Block(k[0], k[1]) == Rotated(kl, 0) && Block(k[8], k[9]) == Rotated(kr, 30)
            && Block(k[16], k[17]) == Rotated(kl, 60) && Block(k[24], k[25]) == Rotated(ka, 77)
            && Block(k[32], k[33]) == Rotated(kb, 111)
  {
    hide Rotated;
  }

  lemma Named256InOrder(kl: Block, kr: Block, ka: Block, kb: Block)
    ensures InSourceOrder(Named256(kl, kr, ka, kb), 4, Subkeys256(kl, kr, ka, kb))
  {
    hide Rotated, Pairs, Subkeys256;
    Edges256(kl, kr, ka, kb);
    First256(kl, kr, ka, kb); Second256(kl, kr, ka, kb); Third256(kl, kr, ka, kb); Fourth256(kl, kr, ka, kb);
    var n, k := Named256(kl, kr, ka, kb), Subkeys256(kl, kr, ka, kb);
    assert GroupInOrder(n, 4, k, 0) && GroupInOrder(n, 4, k, 1) && GroupInOrder(n, 4, k, 2) && GroupInOrder(n, 4, k, 3);
  }

  /** Two rounds of the key schedule. */
  function StandardPair(s: Sboxes, d: Block, k1: Half, k2: Half): Block { StandardRounds(s, [k1, k2], d) }

  function XorBlock(p: Block, q: Block): Block { Block(Xor(p.a, q.a), Xor(p.b, q.b)) }

  function StandardKa(s: Sboxes, kl: Block, kr: Block): Block {
    StandardPair(s, XorBlock(StandardPair(s, XorBlock(kl, kr), Sigma1, Sigma2), kl), Sigma3, Sigma4)
  }

  function StandardKb(s: Sboxes, ka: Block, kr: Block): Block {
    StandardPair(s, XorBlock(ka, kr), Sigma5, Sigma6)
  }

  lemma PairIs(s: Sboxes, d: Block, k1: Half, k2: Half)
    ensures var d2 := Xor(d.b, F(TablesOf(s), d.a, k1));
            StandardPair(s, d, k1, k2) == Block(Xor(d.a, F(TablesOf(s), d2, k2)), d2)
  {
    hide F, StandardF, Xor, TablesOf;
    FIsStandard(s, d.a, k1);
    var d2 := Xor(d.b, StandardF(s, d.a, k1));
    FIsStandard(s, d2, k2);
    StandardStep(s, [k1, k2], d);
    assert [k1, k2][2..] == [];
    NoRounds(s, Block(Xor(d.a, StandardF(s, d2, k2)), d2));
  }

  lemma KeysAreStandard(s: Sboxes, kl: Block, kr: Block, ka: Block)
    ensures KaOf(TablesOf(s), kl, kr) == StandardKa(s, kl, kr) && KbOf(TablesOf(s), ka, kr) == StandardKb(s, ka, kr)
  {
    hide F, Xor, TablesOf, StandardPair;
    PairIs(s, XorBlock(kl, kr), Sigma1, Sigma2);
    PairIs(s, XorBlock(StandardPair(s, XorBlock(kl, kr), Sigma1, Sigma2), kl), Sigma3, Sigma4);
    PairIs(s, XorBlock(ka, kr), Sigma5, Sigma6);
  }

  /** The named subkeys of a user key: KL and KR are its halves, a 192-bit key's right half completed with
      its complement, and KA and KB follow from them. */
  function NamedFor(s: Sboxes, key: seq<bv8>): Named
    requires GoodLength(|key|)
  {
    var kl := KeyBlock(key, 0);
    if |key| == 16 then Named128(kl, StandardKa(s, kl, Block(Zero, Zero)))
    else
      var kr := if |key| == 24 then Kr192(key) else KeyBlock(key, 16);
      var ka := StandardKa(s, kl, kr);
      Named256(kl, kr, ka, StandardKb(s, ka, kr))
  }

  lemma ScheduleInOrder(s: Sboxes, key: seq<bv8>)
    requires GoodLength(|key|)
    ensures InSourceOrder(NamedFor(s, key), MaxFor(|key|) / 8, Schedule(TablesOf(s), key))
  {
    hide Named128, Named256, Subkeys128, Subkeys256, KaOf, KbOf, KeyBlock, Kr192, InSourceOrder, TablesOf;
    hide StandardKa, StandardKb;
    var t, kl := TablesOf(s), KeyBlock(key, 0);
    if |key| == 16 {
      var ka := KaOf(t, kl, Block(Zero, Zero));
      KeysAreStandard(s, kl, Block(Zero, Zero), ka);
      Named128InOrder(kl, ka);
    } else {
      var kr := if |key| == 24 then Kr192(key) else KeyBlock(key, 16);
      var ka := KaOf(t, kl, kr);
      KeysAreStandard(s, kl, kr, ka);
      Named256InOrder(kl, kr, ka, KbOf(t, ka, kr));
    }
  }

  /** What a keyed context computes on SP tables made from the S-boxes is the cipher of the standard. */
  lemma CipherIsStandard(s: Sboxes, key: seq<bv8>, m: Block)
    requires GoodLength(|key|)
    ensures Complete(NamedFor(s, key), MaxFor(|key|) / 8)
    ensures Cipher(TablesOf(s), key, m) == StandardCipher(s, NamedFor(s, key), MaxFor(|key|) / 8, m)
  {
    hide Schedule, NamedFor, Textbook, StandardCipher, TablesOf, GroupInOrder;
    ScheduleInOrder(s, key);
    TextbookIsStandard(s, NamedFor(s, key), Schedule(TablesOf(s), key), MaxFor(|key|), m);
  }
}
