/** The data path of crypto/camellia.c: F, the FL layers and the round macro that works on
    rewritten subkeys, with textbook Camellia (RFC 3713, sections 2.3 and 2.4) beside them. */
module CamelliaCipher {
  import opened Words

  /** A 64-bit quantity in two words; `l` holds the most significant digits. */
  datatype Half = Half(l: Word, r: Word)

  /** The two halves of a block, io[0..1] and io[2..3]. */
  datatype Block = Block(a: Half, b: Half)

  /** The four SP tables. They are arbitrary: no result here depends on their contents. */
  datatype Tables = Tables(sp1110: bv8 -> Word, sp0222: bv8 -> Word,
                           sp3033: bv8 -> Word, sp4404: bv8 -> Word)

  const Zero := Half(0, 0)

  function Xor(x: Half, y: Half): Half { Half(X(x.l, y.l), X(x.r, y.r)) }

  function Swap(s: Block): Block { Block(s.b, s.a) }

  // ----- the F function and the round macro

  function SumR(t: Tables, x: Word): Word {
    X(X(X(t.sp1110(Byte(x)), t.sp0222(Byte(x >> 24))), t.sp3033(Byte(x >> 16))), t.sp4404(Byte(x >> 8)))
  }

  function SumL(t: Tables, x: Word): Word {
    X(X(X(t.sp1110(Byte(x >> 24)), t.sp0222(Byte(x >> 16))), t.sp3033(Byte(x >> 8))), t.sp4404(Byte(x)))
  }

  /** CAMELLIA_F: the key enters at the input. */
  function F(t: Tables, x: Half, k: Half): Half
  {
    var il, ir := X(x.l, k.l), X(x.r, k.r);
    var yl, yr := SumR(t, ir), SumL(t, il);
    var yl' := X(yl, yr);
    Half(yl', X(Ror8(yr), yl'))
  }

  /** CAMELLIA_ROUNDSM: the key enters between the tables and the last half of P. */
  function RoundSm(t: Tables, x: Half, k: Half, y: Half): Half
  {
    var il := X(SumL(t, x.l), k.l);
    var ir := X(SumR(t, x.r), X(il, k.r));
    Half(X(y.l, ir), X(y.r, X(Ror8(il), ir)))
  }

  /** The last half of P. */
  function LastHalfP(k: Half): Half { var s := X(k.l, k.r); Half(s, X(Ror8(k.l), s)) }

  /** Its inverse, as the loop that ends the key setup computes it. */
  function InverseHalfP(k: Half): Half { var dw := Rol8(X(k.l, k.r)); Half(dw, X(k.l, dw)) }

  // ----- the FL layers

  function FL(x: Half, k: Half): Half {
    var r := X(x.r, Rol1(And(x.l, k.l)));
    Half(X(x.l, Or(r, k.r)), r)
  }

  function FLinv(y: Half, k: Half): Half {
    var l := X(y.l, Or(y.r, k.r));
    Half(l, X(y.r, Rol1(And(l, k.l))))
  }

  /** CAMELLIA_FLS: FL on the left half and its inverse on the right half. */
  function Fls(s: Block, kl: Half, kr: Half): Block {
    var t0 := And(kl.l, s.a.l);
    var t2 := Or(kr.r, s.b.r);
    var rl := X(s.b.l, t2);
    var lr := X(s.a.r, Rol1(t0));
    var t3 := And(kr.l, rl);
    var t1 := Or(kl.r, lr);
    Block(Half(X(s.a.l, t1), lr), Half(rl, X(s.b.r, Rol1(t3))))
  }

  /** How FLinv moves an xor difference; the key setup pushes whitening keys through it. */
  function DiffInv(d: Half, k: Half): Half {
    var l := X(d.l, AndNot(d.r, k.r));
    Half(l, X(d.r, Rol1(And(l, k.l))))
  }

  /** How FL moves an xor difference. */
  function Diff(d: Half, k: Half): Half {
    var r := X(d.r, Rol1(And(d.l, k.l)));
    Half(X(d.l, AndNot(r, k.r)), r)
  }

  // ----- algebra of halves

  lemma XorComm(a: Half, b: Half)
    ensures Xor(a, b) == Xor(b, a)
  {
    hide X;
    XComm(a.l, b.l); XComm(a.r, b.r);
  }

  lemma XorAssoc(a: Half, b: Half, c: Half)
    ensures Xor(Xor(a, b), c) == Xor(a, Xor(b, c))
  {
    hide X;
    XAssoc(a.l, b.l, c.l); XAssoc(a.r, b.r, c.r);
  }

  lemma XorBack(a: Half, b: Half)
    ensures Xor(a, Xor(a, b)) == b
    ensures Xor(Xor(b, a), a) == b
  {
    hide X;
    XBack(a.l, b.l); XBack(a.r, b.r);
  }

  lemma XorCross(a: Half, b: Half, c: Half, d: Half)
    ensures Xor(Xor(a, b), Xor(c, d)) == Xor(Xor(a, c), Xor(b, d))
  {
    hide X;
    XCross(a.l, b.l, c.l, d.l); XCross(a.r, b.r, c.r, d.r);
  }

  /** A difference added to both sides of an xor drops out. */
  lemma XorDrop(a: Half, b: Half, d: Half)
    ensures Xor(Xor(a, d), Xor(b, d)) == Xor(a, b)
  {
    hide Xor;
    XorComm(b, d); XorAssoc(a, d, Xor(d, b)); XorBack(d, b);
  }

  // ----- the round macro is F with its key moved

  lemma InverseHalfPInverts(k: Half)
    ensures LastHalfP(InverseHalfP(k)) == k
  {
    hide X, Rol8, Ror8;
    var s := X(k.l, k.r);
    var dw := Rol8(s);
    Ror8Rol8(s);
    XSwap(dw, k.l, dw); XSelf(dw); XSelf(k.l);
    XComm(s, k.l); XBack(k.l, k.r);
  }

  lemma LastHalfPLinear(c: Half, d: Half)
    ensures LastHalfP(Xor(c, d)) == Xor(LastHalfP(c), LastHalfP(d))
  {
    hide X, Ror8;
    XCross(c.l, d.l, c.r, d.r);
    Ror8X(c.l, d.l);
    XCross(Ror8(c.l), Ror8(d.l), X(c.l, c.r), X(d.l, d.r));
  }

  /** A round adds F without a key, and then the key carried through the last half of P. */
  lemma RoundSmIsF(t: Tables, x: Half, k: Half, y: Half)
    ensures RoundSm(t, x, k, y) == Xor(y, Xor(F(t, x, Zero), LastHalfP(k)))
  {
    hide X, SumL, SumR, Ror8;
    XSelf(x.l); XSelf(x.r);
    var v, u := SumL(t, x.l), SumR(t, x.r);
    XComm(u, v);
    assert F(t, x, Zero) == LastHalfP(Half(v, u));
    XSwap(u, X(v, k.l), k.r);
    LastHalfPLinear(Half(v, u), k);
  }

  /** F sees only the xor of its input and its key. */
  lemma KeyAtInput(t: Tables, x: Half, k: Half)
    ensures F(t, Xor(x, k), k) == F(t, x, Zero)
  {
    hide X, SumL, SumR, Ror8;
    XBack(k.l, x.l); XBack(k.r, x.r); XSelf(x.l); XSelf(x.r);
  }

  // ----- the FL layers are affine, and inverse to one another

  lemma FlsIsBothLayers(s: Block, kl: Half, kr: Half)
    ensures Fls(s, kl, kr) == Block(FL(s.a, kl), FLinv(s.b, kr))
  {
    hide X, And, Or, Rol1;
    AndOrComm(kl.l, s.a.l); AndOrComm(kr.r, s.b.r);
    AndOrComm(kl.r, FL(s.a, kl).r); AndOrComm(kr.l, FLinv(s.b, kr).l);
  }

  lemma FLMovesDifference(x: Half, d: Half, k: Half)
    ensures FL(Xor(x, d), k) == Xor(FL(x, k), Diff(d, k))
  {
    hide X, And, Or, AndNot, Rol1;
    AndX(x.l, d.l, k.l);
    Rol1X(And(x.l, k.l), And(d.l, k.l));
    XCross(x.r, d.r, Rol1(And(x.l, k.l)), Rol1(And(d.l, k.l)));
    var rx, rd := FL(x, k).r, Diff(d, k).r;
    OrX(rx, rd, k.r);
    XCross(x.l, d.l, Or(rx, k.r), AndNot(rd, k.r));
  }

  lemma FLinvMovesDifference(y: Half, d: Half, k: Half)
    ensures FLinv(Xor(y, d), k) == Xor(FLinv(y, k), DiffInv(d, k))
  {
    hide X, And, Or, AndNot, Rol1;
    OrX(y.r, d.r, k.r);
    XCross(y.l, d.l, Or(y.r, k.r), AndNot(d.r, k.r));
    var ly, ld := FLinv(y, k).l, DiffInv(d, k).l;
    AndX(ly, ld, k.l);
    Rol1X(And(ly, k.l), And(ld, k.l));
    XCross(y.r, d.r, Rol1(And(ly, k.l)), Rol1(And(ld, k.l)));
  }

  lemma DiffInvLinear(c: Half, d: Half, k: Half)
    ensures DiffInv(Xor(c, d), k) == Xor(DiffInv(c, k), DiffInv(d, k))
  {
    hide X, And, AndNot, Rol1;
    AndNotX(c.r, d.r, k.r);
    XCross(c.l, d.l, AndNot(c.r, k.r), AndNot(d.r, k.r));
    var lc, ld := DiffInv(c, k).l, DiffInv(d, k).l;
    AndX(lc, ld, k.l);
    Rol1X(And(lc, k.l), And(ld, k.l));
    XCross(c.r, d.r, Rol1(And(lc, k.l)), Rol1(And(ld, k.l)));
  }

  lemma DiffUndoesDiffInv(d: Half, k: Half)
    ensures Diff(DiffInv(d, k), k) == d
  {
    hide X, And, AndNot, Rol1;
    XBack(Rol1(And(DiffInv(d, k).l, k.l)), d.r);
    XBack(AndNot(d.r, k.r), d.l);
  }

  lemma LayersAreInverse(x: Half, k: Half)
    ensures FLinv(FL(x, k), k) == x
    ensures FL(FLinv(x, k), k) == x
  {
    hide X, And, Or, Rol1;
    XBack(Or(FL(x, k).r, k.r), x.l);
    XBack(Rol1(And(x.l, k.l)), x.r);
    XBack(Rol1(And(FLinv(x, k).l, k.l)), x.r);
    XBack(Or(x.r, k.r), x.l);
  }

  // ----- textbook Camellia: keys at the input of F, kw1..kw4 kept apart

  /** Two rounds keyed by k[i] and k[i + 1]. */
  function RefPair(t: Tables, k: seq<Half>, i: nat, s: Block): Block
    requires i + 1 < |k|
  {
    var b := Xor(s.b, F(t, s.a, k[i]));
    Block(Xor(s.a, F(t, b, k[i + 1])), b)
  }

  function RefSix(t: Tables, k: seq<Half>, i: nat, s: Block): Block
    requires i + 5 < |k|
  {
    RefPair(t, k, i + 4, RefPair(t, k, i + 2, RefPair(t, k, i, s)))
  }

  function RefLayer(k: seq<Half>, i: nat, s: Block): Block
    requires i + 1 < |k|
  {
    Block(FL(s.a, k[i]), FLinv(s.b, k[i + 1]))
  }

  /** Encryption with subkeys in the source's order: kw1, kw2, six round keys, then two layer
      keys and six round keys as often as there are layers, kw3, kw4. */
  function Textbook(t: Tables, k: seq<Half>, max: nat, m: Block): Block
    requires max == 24 || max == 32
    requires |k| == max + 2
  {
    var s0 := Block(Xor(m.a, k[0]), Xor(m.b, k[1]));
    var s1 := RefSix(t, k, 2, s0);
    var s2 := RefSix(t, k, 10, RefLayer(k, 8, s1));
    var s3 := RefSix(t, k, 18, RefLayer(k, 16, s2));
    var s4 := if max == 24 then s3 else RefSix(t, k, 26, RefLayer(k, 24, s3));
    Block(Xor(s4.b, k[max]), Xor(s4.a, k[max + 1]))
  }
}
