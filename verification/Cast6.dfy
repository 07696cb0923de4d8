/** CAST-256 of crypto/cast6.c, section 2 of RFC 2612: quad-rounds, for any S-boxes and any round
    keys. */
module Cast6 {
  import opened Words

  /** The four S-boxes. */
  datatype Boxes = Boxes(s1: bv8 -> Word, s2: bv8 -> Word, s3: bv8 -> Word, s4: bv8 -> Word)

  datatype Quad = Quad(a: Word, b: Word, c: Word, d: Word)

  newtype Shift = n: int | 0 <= n < 32

  /** The rotations and the masks of one quad-round. */
  datatype Keys = Keys(kr0: Shift, kr1: Shift, kr2: Shift, kr3: Shift, km0: Word, km1: Word, km2: Word, km3: Word)

  function Rol(x: Word, n: Shift): Word { (x << n as int) | (x >> (32 - n as int)) }

  function F1(t: Boxes, d: Word, r: Shift, m: Word): Word {
    var i := Rol(Plus(m, d), r);
    Plus(Minus(X(t.s1(ByteAt(i, 1)), t.s2(ByteAt(i, 2))), t.s3(ByteAt(i, 3))), t.s4(ByteAt(i, 4)))
  }

  function F2(t: Boxes, d: Word, r: Shift, m: Word): Word {
    var i := Rol(X(m, d), r);
    X(Plus(Minus(t.s1(ByteAt(i, 1)), t.s2(ByteAt(i, 2))), t.s3(ByteAt(i, 3))), t.s4(ByteAt(i, 4)))
  }

  function F3(t: Boxes, d: Word, r: Shift, m: Word): Word {
    var i := Rol(Minus(m, d), r);
    Minus(X(Plus(t.s1(ByteAt(i, 1)), t.s2(ByteAt(i, 2))), t.s3(ByteAt(i, 3))), t.s4(ByteAt(i, 4)))
  }

  /** The round functions as section 2.2 of RFC 2612 states them, on the bytes of I from the most
      significant down. */
  lemma RoundFunctions(t: Boxes, d: Word, r: Shift, m: Word, i: Word, a: bv8, b: bv8, c: bv8, e: bv8)
    requires i == FromBytes(a, b, c, e)
    ensures Rol(Plus(m, d), r) == i ==> F1(t, d, r, m) == Plus(Minus(X(t.s1(a), t.s2(b)), t.s3(c)), t.s4(e))
    ensures Rol(X(m, d), r) == i ==> F2(t, d, r, m) == X(Plus(Minus(t.s1(a), t.s2(b)), t.s3(c)), t.s4(e))
    ensures Rol(Minus(m, d), r) == i ==> F3(t, d, r, m) == Minus(X(Plus(t.s1(a), t.s2(b)), t.s3(c)), t.s4(e))
  {
    hide Rol, ByteAt, FromBytes, Plus, Minus, X;
    BytesBack(a, b, c, e);
  }

  /** The forward quad-round. */
  function Q(t: Boxes, k: Keys, x: Quad): Quad {
    var c := X(x.c, F1(t, x.d, k.kr0, k.km0));
    var b := X(x.b, F2(t, c, k.kr1, k.km1));
    var a := X(x.a, F3(t, b, k.kr2, k.km2));
    var d := X(x.d, F1(t, a, k.kr3, k.km3));
    Quad(a, b, c, d)
  }

  /** The reverse quad-round. */
  function QBar(t: Boxes, k: Keys, x: Quad): Quad {
    var d := X(x.d, F1(t, x.a, k.kr3, k.km3));
    var a := X(x.a, F3(t, x.b, k.kr2, k.km2));
    var b := X(x.b, F2(t, x.c, k.kr1, k.km1));
    var c := X(x.c, F1(t, d, k.kr0, k.km0));
    Quad(a, b, c, d)
  }

  /** Round i of a quad-round, as section 2.4 of RFC 2612 numbers them: one word takes the round function
      of the word behind it, of type 1, 2, 3 and again 1. */
  function Round(t: Boxes, k: Keys, i: nat, x: Quad): Quad {
    match i
    case 0 => x.(c := X(x.c, F1(t, x.d, k.kr0, k.km0)))
    case 1 => x.(b := X(x.b, F2(t, x.c, k.kr1, k.km1)))
    case 2 => x.(a := X(x.a, F3(t, x.b, k.kr2, k.km2)))
    case _ => x.(d := X(x.d, F1(t, x.a, k.kr3, k.km3)))
  }

  /** The reverse quad-round is the same four rounds in reverse order. */
  lemma QuadIsFourRounds(t: Boxes, k: Keys, x: Quad)
    ensures Q(t, k, x) == Round(t, k, 3, Round(t, k, 2, Round(t, k, 1, Round(t, k, 0, x))))
    ensures QBar(t, k, x) == Round(t, k, 0, Round(t, k, 1, Round(t, k, 2, Round(t, k, 3, x))))
  {
    hide X, F1, F2, F3;
  }

  lemma QuadRoundsAreInverse(t: Boxes, k: Keys, x: Quad)
    ensures QBar(t, k, Q(t, k, x)) == x
    ensures Q(t, k, QBar(t, k, x)) == x
  {
    hide X, F1, F2, F3;
    var y := Q(t, k, x);
    XBack(F1(t, y.a, k.kr3, k.km3), x.d);
    XBack(F3(t, y.b, k.kr2, k.km2), x.a);
    XBack(F2(t, y.c, k.kr1, k.km1), x.b);
    XBack(F1(t, x.d, k.kr0, k.km0), x.c);
    var z := QBar(t, k, x);
    XBack(F1(t, z.d, k.kr0, k.km0), x.c);
    XBack(F2(t, x.c, k.kr1, k.km1), x.b);
    XBack(F3(t, x.b, k.kr2, k.km2), x.a);
    XBack(F1(t, x.a, k.kr3, k.km3), x.d);
  }

  // ----- the cipher

  /** Quad-rounds lo up to, but not including, hi: the first six of the cipher go forward, the
      others in reverse. */
  function Rounds(t: Boxes, ks: seq<Keys>, lo: nat, hi: nat, x: Quad): Quad
    requires lo <= hi <= |ks|
    decreases hi - lo
  {
    if lo == hi then x
    else
      var y := if lo < 6 then Q(t, ks[lo], x) else QBar(t, ks[lo], x);
      Rounds(t, ks, lo + 1, hi, y)
  }

  /** The same quad-rounds undone, from the last back. */
  function Back(t: Boxes, ks: seq<Keys>, lo: nat, hi: nat, x: Quad): Quad
    requires lo <= hi <= |ks|
    decreases hi - lo
  {
    if lo == hi then x
    else
      var y := if hi - 1 < 6 then QBar(t, ks[hi - 1], x) else Q(t, ks[hi - 1], x);
      Back(t, ks, lo, hi - 1, y)
  }

  function Encrypt(t: Boxes, ks: seq<Keys>, x: Quad): Quad
    requires |ks| == 12
  {
    Rounds(t, ks, 0, 12, x)
  }

  function Decrypt(t: Boxes, ks: seq<Keys>, x: Quad): Quad
    requires |ks| == 12
  {
    Back(t, ks, 0, 12, x)
  }

  lemma {:induction false} RoundsLast(t: Boxes, ks: seq<Keys>, lo: nat, hi: nat, x: Quad)
    requires lo < hi <= |ks|
    ensures var y := Rounds(t, ks, lo, hi - 1, x);
            Rounds(t, ks, lo, hi, x) == (if hi - 1 < 6 then Q(t, ks[hi - 1], y) else QBar(t, ks[hi - 1], y))
    decreases hi - lo
  {
    hide Q, QBar;
    if lo + 1 < hi {
      var y := if lo < 6 then Q(t, ks[lo], x) else QBar(t, ks[lo], x);
      RoundsLast(t, ks, lo + 1, hi, y);
    }
  }

  lemma {:induction false} BackUndoes(t: Boxes, ks: seq<Keys>, lo: nat, hi: nat, x: Quad)
    requires lo <= hi <= |ks|
    ensures Back(t, ks, lo, hi, Rounds(t, ks, lo, hi, x)) == x
    decreases hi - lo
  {
    hide Q, QBar;
    if lo < hi {
      RoundsLast(t, ks, lo, hi, x);
      QuadRoundsAreInverse(t, ks[hi - 1], Rounds(t, ks, lo, hi - 1, x));
      BackUndoes(t, ks, lo, hi - 1, x);
    }
  }

  lemma {:induction false} RoundsUndo(t: Boxes, ks: seq<Keys>, lo: nat, hi: nat, x: Quad)
    requires lo <= hi <= |ks|
    ensures Rounds(t, ks, lo, hi, Back(t, ks, lo, hi, x)) == x
    decreases hi - lo
  {
    hide Q, QBar;
    if lo < hi {
      var y := if hi - 1 < 6 then QBar(t, ks[hi - 1], x) else Q(t, ks[hi - 1], x);
      RoundsUndo(t, ks, lo, hi - 1, y);
      RoundsLast(t, ks, lo, hi, Back(t, ks, lo, hi - 1, y));
      QuadRoundsAreInverse(t, ks[hi - 1], x);
    }
  }

  /** Decryption undoes encryption, and encryption decryption, for every S-box, key and block. */
  lemma RoundTrip(t: Boxes, ks: seq<Keys>, x: Quad)
    requires |ks| == 12
    ensures Decrypt(t, ks, Encrypt(t, ks, x)) == x && Encrypt(t, ks, Decrypt(t, ks, x)) == x
  {
    BackUndoes(t, ks, 0, 12, x);
    RoundsUndo(t, ks, 0, 12, x);
  }

  // ----- in place

  function BlockOf(block: array<Word>): Quad
    requires block.Length == 4
    reads block
  {
    Quad(block[0], block[1], block[2], block[3])
  }

  method QuadInPlace(t: Boxes, k: Keys, block: array<Word>)
    requires block.Length == 4
    modifies block
    ensures BlockOf(block) == Q(t, k, old(BlockOf(block)))
  {
    hide X, F1, F2, F3;
    block[2] := X(block[2], F1(t, block[3], k.kr0, k.km0));
    block[1] := X(block[1], F2(t, block[2], k.kr1, k.km1));
    block[0] := X(block[0], F3(t, block[1], k.kr2, k.km2));
    block[3] := X(block[3], F1(t, block[0], k.kr3, k.km3));
  }

  method QuadBackInPlace(t: Boxes, k: Keys, block: array<Word>)
    requires block.Length == 4
    modifies block
    ensures BlockOf(block) == QBar(t, k, old(BlockOf(block)))
  {
    hide X, F1, F2, F3;
    block[3] := X(block[3], F1(t, block[0], k.kr3, k.km3));
    block[0] := X(block[0], F3(t, block[1], k.kr2, k.km2));
    block[1] := X(block[1], F2(t, block[2], k.kr1, k.km1));
    block[2] := X(block[2], F1(t, block[3], k.kr0, k.km0));
  }

  /** Six quad-rounds with the keys from `at` up, as the first or the second half of encryption. */
  method SixUp(t: Boxes, ks: seq<Keys>, at: nat, block: array<Word>)
    requires |ks| == 12 && (at == 0 || at == 6) && block.Length == 4
    modifies block
    ensures BlockOf(block) == Rounds(t, ks, at, at + 6, old(BlockOf(block)))
  {
    hide Q, QBar, BlockOf;
    if at == 0 {
      QuadInPlace(t, ks[0], block);
      QuadInPlace(t, ks[1], block);
      QuadInPlace(t, ks[2], block);
      QuadInPlace(t, ks[3], block);
      QuadInPlace(t, ks[4], block);
      QuadInPlace(t, ks[5], block);
    } else {
      QuadBackInPlace(t, ks[6], block);
      QuadBackInPlace(t, ks[7], block);
      QuadBackInPlace(t, ks[8], block);
      QuadBackInPlace(t, ks[9], block);
      QuadBackInPlace(t, ks[10], block);
      QuadBackInPlace(t, ks[11], block);
    }
  }

  /** Six quad-rounds with the keys down to `at`, as the first or the second half of decryption. */
  method SixDown(t: Boxes, ks: seq<Keys>, at: nat, block: array<Word>)
    requires |ks| == 12 && (at == 0 || at == 6) && block.Length == 4
    modifies block
    ensures BlockOf(block) == Back(t, ks, at, at + 6, old(BlockOf(block)))
  {
    hide Q, QBar, BlockOf;
    if at == 6 {
      QuadInPlace(t, ks[11], block);
      QuadInPlace(t, ks[10], block);
      QuadInPlace(t, ks[9], block);
      QuadInPlace(t, ks[8], block);
      QuadInPlace(t, ks[7], block);
      QuadInPlace(t, ks[6], block);
    } else {
      QuadBackInPlace(t, ks[5], block);
      QuadBackInPlace(t, ks[4], block);
      QuadBackInPlace(t, ks[3], block);
      QuadBackInPlace(t, ks[2], block);
      QuadBackInPlace(t, ks[1], block);
      QuadBackInPlace(t, ks[0], block);
    }
  }

  lemma {:induction false} RoundsSplit(t: Boxes, ks: seq<Keys>, lo: nat, mid: nat, hi: nat, x: Quad)
    requires lo <= mid <= hi <= |ks|
    ensures Rounds(t, ks, lo, hi, x) == Rounds(t, ks, mid, hi, Rounds(t, ks, lo, mid, x))
    decreases mid - lo
  {
    hide Q, QBar;
    if lo < mid {
      RoundsSplit(t, ks, lo + 1, mid, hi, if lo < 6 then Q(t, ks[lo], x) else QBar(t, ks[lo], x));
    }
  }

  lemma {:induction false} BackSplit(t: Boxes, ks: seq<Keys>, lo: nat, mid: nat, hi: nat, x: Quad)
    requires lo <= mid <= hi <= |ks|
    ensures Back(t, ks, lo, hi, x) == Back(t, ks, lo, mid, Back(t, ks, mid, hi, x))
    decreases hi - mid
  {
    hide Q, QBar;
    if mid < hi {
      BackSplit(t, ks, lo, mid, hi - 1, if hi - 1 < 6 then QBar(t, ks[hi - 1], x) else Q(t, ks[hi - 1], x));
    }
  }

  /** cast6_encrypt on the words of a block; source and destination may be the same. */
  method EncryptInto(t: Boxes, ks: seq<Keys>, dst: array<Word>, src: array<Word>)
    requires |ks| == 12 && dst.Length == 4 && src.Length == 4
    modifies dst
    ensures BlockOf(dst) == Encrypt(t, ks, old(BlockOf(src)))
  {
    hide Rounds;
    var block := new Word[4];
    block[0], block[1], block[2], block[3] := src[0], src[1], src[2], src[3];
    RoundsSplit(t, ks, 0, 6, 12, BlockOf(block));
    SixUp(t, ks, 0, block);
    SixUp(t, ks, 6, block);
    dst[0], dst[1], dst[2], dst[3] := block[0], block[1], block[2], block[3];
  }

  /** cast6_decrypt: what was encrypted with the same keys comes back. */
  method DecryptInto(t: Boxes, ks: seq<Keys>, dst: array<Word>, src: array<Word>)
    requires |ks| == 12 && dst.Length == 4 && src.Length == 4
    modifies dst
    ensures BlockOf(dst) == Decrypt(t, ks, old(BlockOf(src)))
    ensures Encrypt(t, ks, BlockOf(dst)) == old(BlockOf(src))
  {
    hide Back, Rounds;
    var block := new Word[4];
    block[0], block[1], block[2], block[3] := src[0], src[1], src[2], src[3];
    RoundTrip(t, ks, BlockOf(block));
    BackSplit(t, ks, 0, 6, 12, BlockOf(block));
    SixDown(t, ks, 6, block);
    SixDown(t, ks, 0, block);
    dst[0], dst[1], dst[2], dst[3] := block[0], block[1], block[2], block[3];
  }
}
