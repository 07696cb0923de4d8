/** 32-bit words as the ciphers use them. The operators are named so that a proof can
    hide them and work with the laws below instead of with individual bits. */
module Words {
  type Word = bv32

  function X(a: Word, b: Word): Word { a ^ b }
  function Plus(a: Word, b: Word): Word { a + b }
  function Minus(a: Word, b: Word): Word { a - b }
  function And(a: Word, b: Word): Word { a & b }
  function Or(a: Word, b: Word): Word { a | b }
  function AndNot(a: Word, b: Word): Word { a & !b }
  function Rol1(x: Word): Word { (x << 1) | (x >> 31) }
  function Rol8(x: Word): Word { (x << 8) | (x >> 24) }
  function Ror8(x: Word): Word { (x >> 8) | (x << 24) }
  function Byte(x: Word): bv8 { (x & 0xff) as bv8 }
  /** The word of four bytes, the most significant first. */
  function FromBytes(a: bv8, b: bv8, c: bv8, d: bv8): Word {
    ((a as Word) << 24) | ((b as Word) << 16) | ((c as Word) << 8) | (d as Word)
  }

  /** A byte of a word, the first being the most significant. */
  function ByteAt(x: Word, i: nat): bv8
    requires 1 <= i <= 4
  {
    match i case 1 => Byte(x >> 24) case 2 => Byte(x >> 16) case 3 => Byte(x >> 8) case _ => Byte(x)
  }

  function Not(x: Word): Word { !x }
  function NotByte(b: bv8): bv8 { !b }

  lemma BytesBack(a: bv8, b: bv8, c: bv8, d: bv8)
    ensures var x := FromBytes(a, b, c, d);
            ByteAt(x, 1) == a && ByteAt(x, 2) == b && ByteAt(x, 3) == c && ByteAt(x, 4) == d
  {}

  lemma XComm(a: Word, b: Word)
    ensures X(a, b) == X(b, a)
  {}

  lemma XAssoc(a: Word, b: Word, c: Word)
    ensures X(X(a, b), c) == X(a, X(b, c))
  {
    assert (a ^ b) ^ c == a ^ (b ^ c);
  }

  lemma XSelf(a: Word)
    ensures X(a, a) == 0 && X(a, 0) == a
  {}

  lemma XBack(a: Word, b: Word)
    ensures X(a, X(a, b)) == b
    ensures X(X(b, a), a) == b
  {
    hide X;
    XAssoc(a, a, b); XAssoc(b, a, a); XSelf(a); XSelf(b); XComm(0, b);
  }

  lemma XSwap(a: Word, b: Word, c: Word)
    ensures X(a, X(b, c)) == X(b, X(a, c))
  {
    hide X;
    XAssoc(a, b, c); XAssoc(b, a, c); XComm(a, b);
  }

  lemma XCross(a: Word, b: Word, c: Word, d: Word)
    ensures X(X(a, b), X(c, d)) == X(X(a, c), X(b, d))
  {
    hide X;
    XAssoc(a, b, X(c, d)); XSwap(b, c, d); XAssoc(a, c, X(b, d));
  }

  lemma Ror8X(x: Word, y: Word)
    ensures Ror8(X(x, y)) == X(Ror8(x), Ror8(y))
  {
    assert ((x ^ y) >> 8) | ((x ^ y) << 24) == ((x >> 8) | (x << 24)) ^ ((y >> 8) | (y << 24));
  }

  lemma Rol1X(x: Word, y: Word)
    ensures Rol1(X(x, y)) == X(Rol1(x), Rol1(y))
  {
    assert ((x ^ y) << 1) | ((x ^ y) >> 31) == ((x << 1) | (x >> 31)) ^ ((y << 1) | (y >> 31));
  }

  lemma Ror8Rol8(x: Word)
    ensures Ror8(Rol8(x)) == x
  {}

  lemma AndNotX(x: Word, y: Word, k: Word)
    ensures AndNot(X(x, y), k) == X(AndNot(x, k), AndNot(y, k))
  {
    assert (x ^ y) & !k == (x & !k) ^ (y & !k);
  }

  lemma AndIsAndNot(a: Word, b: Word)
    ensures And(a, b) == AndNot(a, !b)
  {}

  lemma AndX(x: Word, y: Word, k: Word)
    ensures And(X(x, y), k) == X(And(x, k), And(y, k))
  {
    AndIsAndNot(X(x, y), k); AndIsAndNot(x, k); AndIsAndNot(y, k);
    AndNotX(x, y, !k);
    hide X, And, AndNot;
  }

  lemma OrX(x: Word, y: Word, k: Word)
    ensures Or(X(x, y), k) == X(Or(x, k), AndNot(y, k))
  {
    assert (x ^ y) | k == (x | k) ^ (y & !k);
  }

  lemma AndOrComm(a: Word, b: Word)
    ensures And(a, b) == And(b, a)
    ensures Or(a, b) == Or(b, a)
  {}
}
