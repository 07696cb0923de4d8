/** 128-bit rotations of a key kept in four words, as the Camellia key setups chain them. */
module CamelliaRotations {
  import opened Words
  import opened CamelliaCipher

  /** The four words as one 128-bit value, and back. */
  function Cat(q: Block): bv128 { FourWords(q.a.l, q.a.r, q.b.l, q.b.r) }

  function FourWords(a: Word, b: Word, c: Word, d: Word): bv128 {
    ((a as bv128) << 96) | ((b as bv128) << 64) | ((c as bv128) << 32) | (d as bv128)
  }

  function Split(x: bv128): Block {
    Block(Half((x >> 96) as Word, ((x >> 64) & 0xffff_ffff) as Word),
          Half(((x >> 32) & 0xffff_ffff) as Word, (x & 0xffff_ffff) as Word))
  }

  function Rotl(x: bv128, n: bv8): bv128
    requires n <= 128
  {
    (x << n) | (x >> (128 - n))
  }

  /** The 128-bit value turned left by n bits: the <<< of RFC 3713. */
  function Rotated(q: Block, n: bv8): Block
    requires n <= 128
  {
    Split(Rotl(Cat(q), n))
  }

  /** ROLDQ */
  function Roldq(q: Block, n: bv8): Block
    requires 0 < n < 32
  {
    Block(Half((q.a.l << n) + (q.a.r >> (32 - n)), (q.a.r << n) + (q.b.l >> (32 - n))),
          Half((q.b.l << n) + (q.b.r >> (32 - n)), (q.b.r << n) + (q.a.l >> (32 - n))))
  }

  /** ROLDQo32 */
  function RoldqO32(q: Block, n: bv8): Block
    requires 32 < n < 64
  {
    Block(Half((q.a.r << (n - 32)) + (q.b.l >> (64 - n)), (q.b.l << (n - 32)) + (q.b.r >> (64 - n))),
          Half((q.b.r << (n - 32)) + (q.a.l >> (64 - n)), (q.a.l << (n - 32)) + (q.a.r >> (64 - n))))
  }

  lemma CatSplit(x: bv128)
    ensures Cat(Split(x)) == x
  {}

  lemma SplitCat(q: Block)
    ensures Split(Cat(q)) == q
  {}

  // ----- the macros turn the 128-bit value, for every distance the setups use

  lemma Roldq15(q: Block)
    ensures Roldq(q, 15) == Rotated(q, 15)
  {
    assert Cat(Roldq(q, 15)) == Rotl(Cat(q), 15);
    SplitCat(Roldq(q, 15));
    hide Cat, Split, Rotl, Roldq;
  }

  lemma Roldq17(q: Block)
    ensures Roldq(q, 17) == Rotated(q, 17)
  {
    assert Cat(Roldq(q, 17)) == Rotl(Cat(q), 17);
    SplitCat(Roldq(q, 17));
    hide Cat, Split, Rotl, Roldq;
  }

  lemma Roldq30(q: Block)
    ensures Roldq(q, 30) == Rotated(q, 30)
  {
    assert Cat(Roldq(q, 30)) == Rotl(Cat(q), 30);
    SplitCat(Roldq(q, 30));
    hide Cat, Split, Rotl, Roldq;
  }

  lemma RoldqO34(q: Block)
    ensures RoldqO32(q, 34) == Rotated(q, 34)
  {
    assert Cat(RoldqO32(q, 34)) == Rotl(Cat(q), 34);
    SplitCat(RoldqO32(q, 34));
    hide Cat, Split, Rotl, RoldqO32;
  }

  lemma RoldqO45(q: Block)
    ensures RoldqO32(q, 45) == Rotated(q, 45)
  {
    assert Cat(RoldqO32(q, 45)) == Rotl(Cat(q), 45);
    SplitCat(RoldqO32(q, 45));
    hide Cat, Split, Rotl, RoldqO32;
  }

  lemma RoldqO49(q: Block)
    ensures RoldqO32(q, 49) == Rotated(q, 49)
  {
    assert Cat(RoldqO32(q, 49)) == Rotl(Cat(q), 49);
    SplitCat(RoldqO32(q, 49));
    hide Cat, Split, Rotl, RoldqO32;
  }

  lemma RoldqO51(q: Block)
    ensures RoldqO32(q, 51) == Rotated(q, 51)
  {
    assert Cat(RoldqO32(q, 51)) == Rotl(Cat(q), 51);
    SplitCat(RoldqO32(q, 51));
    hide Cat, Split, Rotl, RoldqO32;
  }

  /** Turning by one word only moves the words. */
  lemma Turn32(q: Block)
    ensures Rotated(q, 32) == Block(Half(q.a.r, q.b.l), Half(q.b.r, q.a.l))
  {
    var q' := Block(Half(q.a.r, q.b.l), Half(q.b.r, q.a.l));
    ByOneWordIs(Cat(q));
    MovedWords(q.a.l, q.a.r, q.b.l, q.b.r);
    SplitCat(q');
    hide FourWords, ByOneWord, Split, Rotl;
  }

  function ByOneWord(x: bv128): bv128 { (x << 32) | (x >> 96) }

  lemma ByOneWordIs(x: bv128)
    ensures ByOneWord(x) == Rotl(x, 32)
  {}

  lemma MovedWords(a: Word, b: Word, c: Word, d: Word)
    ensures ByOneWord(FourWords(a, b, c, d)) == FourWords(b, c, d, a)
  {}

  /** Turning by nothing, or all the way round. */
  lemma TurnFull(q: Block)
    ensures Rotated(q, 0) == q
    ensures Rotated(q, 128) == q
  {
    assert Rotl(Cat(q), 0) == Cat(q);
    assert Rotl(Cat(q), 128) == Cat(q);
    SplitCat(q);
    hide Cat, Split, Rotl;
  }

  // ----- chained turns add up, for every chain in the setups

  lemma Turn15then15(q: Block)
    ensures Rotated(Rotated(q, 15), 15) == Rotated(q, 30)
  {
    assert Rotl(Rotl(Cat(q), 15), 15) == Rotl(Cat(q), 30);
    CatSplit(Rotl(Cat(q), 15));
    hide Cat, Split, Rotl;
  }

  lemma Turn15then30(q: Block)
    ensures Rotated(Rotated(q, 15), 30) == Rotated(q, 45)
  {
    assert Rotl(Rotl(Cat(q), 15), 30) == Rotl(Cat(q), 45);
    CatSplit(Rotl(Cat(q), 15));
    hide Cat, Split, Rotl;
  }

  lemma Turn30then15(q: Block)
    ensures Rotated(Rotated(q, 30), 15) == Rotated(q, 45)
  {
    assert Rotl(Rotl(Cat(q), 30), 15) == Rotl(Cat(q), 45);
    CatSplit(Rotl(Cat(q), 30));
    hide Cat, Split, Rotl;
  }

  lemma Turn30then30(q: Block)
    ensures Rotated(Rotated(q, 30), 30) == Rotated(q, 60)
  {
    assert Rotl(Rotl(Cat(q), 30), 30) == Rotl(Cat(q), 60);
    CatSplit(Rotl(Cat(q), 30));
    hide Cat, Split, Rotl;
  }

  lemma Turn45then15(q: Block)
    ensures Rotated(Rotated(q, 45), 15) == Rotated(q, 60)
  {
    assert Rotl(Rotl(Cat(q), 45), 15) == Rotl(Cat(q), 60);
    CatSplit(Rotl(Cat(q), 45));
    hide Cat, Split, Rotl;
  }

  lemma Turn45then32(q: Block)
    ensures Rotated(Rotated(q, 45), 32) == Rotated(q, 77)
  {
    assert Rotl(Rotl(Cat(q), 45), 32) == Rotl(Cat(q), 77);
    CatSplit(Rotl(Cat(q), 45));
    hide Cat, Split, Rotl;
  }

  lemma Turn45then49(q: Block)
    ensures Rotated(Rotated(q, 45), 49) == Rotated(q, 94)
  {
    assert Rotl(Rotl(Cat(q), 45), 49) == Rotl(Cat(q), 94);
    CatSplit(Rotl(Cat(q), 45));
    hide Cat, Split, Rotl;
  }

  lemma Turn60then17(q: Block)
    ensures Rotated(Rotated(q, 60), 17) == Rotated(q, 77)
  {
    assert Rotl(Rotl(Cat(q), 60), 17) == Rotl(Cat(q), 77);
    CatSplit(Rotl(Cat(q), 60));
    hide Cat, Split, Rotl;
  }

  lemma Turn60then34(q: Block)
    ensures Rotated(Rotated(q, 60), 34) == Rotated(q, 94)
  {
    assert Rotl(Rotl(Cat(q), 60), 34) == Rotl(Cat(q), 94);
    CatSplit(Rotl(Cat(q), 60));
    hide Cat, Split, Rotl;
  }

  lemma Turn60then51(q: Block)
    ensures Rotated(Rotated(q, 60), 51) == Rotated(q, 111)
  {
    assert Rotl(Rotl(Cat(q), 60), 51) == Rotl(Cat(q), 111);
    CatSplit(Rotl(Cat(q), 60));
    hide Cat, Split, Rotl;
  }

  lemma Turn77then17(q: Block)
    ensures Rotated(Rotated(q, 77), 17) == Rotated(q, 94)
  {
    assert Rotl(Rotl(Cat(q), 77), 17) == Rotl(Cat(q), 94);
    CatSplit(Rotl(Cat(q), 77));
    hide Cat, Split, Rotl;
  }

  lemma Turn77then34(q: Block)
    ensures Rotated(Rotated(q, 77), 34) == Rotated(q, 111)
  {
    assert Rotl(Rotl(Cat(q), 77), 34) == Rotl(Cat(q), 111);
    CatSplit(Rotl(Cat(q), 77));
    hide Cat, Split, Rotl;
  }

  lemma Turn94then17(q: Block)
    ensures Rotated(Rotated(q, 94), 17) == Rotated(q, 111)
  {
    assert Rotl(Rotl(Cat(q), 94), 17) == Rotl(Cat(q), 111);
    CatSplit(Rotl(Cat(q), 94));
    hide Cat, Split, Rotl;
  }

  lemma Turn94then34(q: Block)
    ensures Rotated(Rotated(q, 94), 34) == Rotated(q, 128)
  {
    assert Rotl(Rotl(Cat(q), 94), 34) == Rotl(Cat(q), 128);
    CatSplit(Rotl(Cat(q), 94));
    hide Cat, Split, Rotl;
  }
}
