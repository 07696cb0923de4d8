/** Blowfish of crypto/blowfish.c, for any P-array and any S-boxes. */
module Blowfish {
  import opened Lists
  import opened Words

  datatype Boxes = Boxes(s0: bv8 -> Word, s1: bv8 -> Word, s2: bv8 -> Word, s3: bv8 -> Word)

  datatype Pair = Pair(l: Word, r: Word)

  /** bf_F */
  function F(t: Boxes, x: Word): Word {
    Plus(X(Plus(t.s0(ByteAt(x, 1)), t.s1(ByteAt(x, 2))), t.s2(ByteAt(x, 3))), t.s3(ByteAt(x, 4)))
  }

  /** Its S-boxes take the bytes from the most significant down. */
  lemma FOnBytes(t: Boxes, a: bv8, b: bv8, c: bv8, d: bv8)
    ensures F(t, FromBytes(a, b, c, d)) == Plus(X(Plus(t.s0(a), t.s1(b)), t.s2(c)), t.s3(d))
  {
    hide ByteAt, FromBytes, Plus, X;
    BytesBack(a, b, c, d);
  }

  /** One ROUND, with the halves then exchanged. */
  function Round(t: Boxes, k: Word, x: Pair): Pair {
    var l := X(x.l, k);
    Pair(X(x.r, F(t, l)), l)
  }

  /** Rounds with the keys in order. */
  function Rounds(t: Boxes, ks: seq<Word>, x: Pair): Pair
    decreases |ks|
  {
    if ks == [] then x else Rounds(t, ks[1..], Round(t, ks[0], x))
  }

  /** Rounds with all keys but the last two, which whiten the halves at the end. */
  function Cipher(t: Boxes, ks: seq<Word>, x: Pair): Pair
    requires |ks| >= 2
  {
    var n := |ks|;
    var y := Rounds(t, ks[..n - 2], x);
    Pair(X(y.r, ks[n - 1]), X(y.l, ks[n - 2]))
  }

  function Encrypt(t: Boxes, p: seq<Word>, x: Pair): Pair
    requires |p| == 18
  {
    Cipher(t, p, x)
  }

  /** Decryption is the same cipher with the P-array in reverse. */
  function Decrypt(t: Boxes, p: seq<Word>, x: Pair): Pair
    requires |p| == 18
  {
    Cipher(t, Reversed(p), x)
  }

  lemma {:induction false} RoundsLast(t: Boxes, ks: seq<Word>, k: Word, x: Pair)
    ensures Rounds(t, ks + [k], x) == Round(t, k, Rounds(t, ks, x))
    decreases |ks|
  {
    hide Round;
    if ks == [] {
      assert [k] + [] == [k] && ks + [k] == [k];
      assert Rounds(t, [k], x) == Rounds(t, [k][1..], Round(t, k, x));
    } else {
      assert (ks + [k])[1..] == ks[1..] + [k];
      RoundsLast(t, ks[1..], k, Round(t, ks[0], x));
    }
  }

  /** One round of the reversed cipher takes a whitened pair one round back. */
  lemma RoundBack(t: Boxes, k: Word, k1: Word, k2: Word, y: Pair)
    ensures var z := Round(t, k, y);
            Round(t, k2, Pair(X(z.r, k2), X(z.l, k1))) == Pair(X(y.r, k1), X(y.l, k))
  {
    hide X, F;
    var l := X(y.l, k);
    XBack(k2, l);
    XSwap(X(y.r, F(t, l)), k1, F(t, l));
    XComm(X(X(y.r, F(t, l)), k1), F(t, l));
    XAssoc(X(y.r, F(t, l)), k1, F(t, l));
    XBack(F(t, l), y.r);
    XComm(k1, y.r);
  }

  /** The reversed cipher undoes the cipher, whatever the keys and however many. */
  lemma {:induction false} ReversedUndoes(t: Boxes, ks: seq<Word>, x: Pair)
    requires |ks| >= 2
    ensures Cipher(t, Reversed(ks), Cipher(t, ks, x)) == x
    decreases |ks|
  {
    hide X, F, Round, Reversed;
    var n := |ks|;
    var rs := Reversed(ks);
    if n == 2 {
      assert ks[..0] == [] && rs[..0] == [];
      XBack(ks[1], x.r);
      XBack(ks[0], x.l);
    } else {
      var less := ks[..n - 1];
      var y := Rounds(t, ks[..n - 3], x);
      assert ks[..n - 2] == ks[..n - 3] + [ks[n - 3]] && less[..n - 3] == ks[..n - 3];
      RoundsLast(t, ks[..n - 3], ks[n - 3], x);
      RoundBack(t, ks[n - 3], ks[n - 2], ks[n - 1], y);
      ReversedUndoes(t, less, x);
      var rest := rs[..n - 2];
      assert rest[0] == ks[n - 1];
      assert Reversed(less) == rs[1..];
      assert rest[1..] == rs[1..][..n - 3];
    }
  }

  lemma ReversedTwice(ks: seq<Word>)
    ensures Reversed(Reversed(ks)) == ks
  {}

  /** Decryption undoes encryption, and encryption decryption, for every S-box, P-array and block. */
  lemma RoundTrip(t: Boxes, p: seq<Word>, x: Pair)
    requires |p| == 18
    ensures Decrypt(t, p, Encrypt(t, p, x)) == x && Encrypt(t, p, Decrypt(t, p, x)) == x
  {
    hide Cipher;
    ReversedUndoes(t, p, x);
    ReversedUndoes(t, Reversed(p), x);
    ReversedTwice(p);
  }

  // ----- in place

  lemma {:induction false} RoundsAppend(t: Boxes, a: seq<Word>, b: seq<Word>, x: Pair)
    ensures Rounds(t, a + b, x) == Rounds(t, b, Rounds(t, a, x))
    decreases |a|
  {
    hide Round;
    if a == [] {
      assert a + b == b;
    } else {
      assert (a + b)[1..] == a[1..] + b;
      RoundsAppend(t, a[1..], b, Round(t, a[0], x));
    }
  }

  lemma FourRounds(t: Boxes, k0: Word, k1: Word, k2: Word, k3: Word, x: Pair)
    ensures Rounds(t, [k0, k1, k2, k3], x) == Round(t, k3, Round(t, k2, Round(t, k1, Round(t, k0, x))))
  {
    hide Round;
    RoundsLast(t, [k0, k1, k2], k3, x);
    RoundsLast(t, [k0, k1], k2, x);
    RoundsLast(t, [k0], k1, x);
    RoundsLast(t, [], k0, x);
    assert [k0, k1, k2] + [k3] == [k0, k1, k2, k3] && [k0, k1] + [k2] == [k0, k1, k2] && [k0] + [k1] == [k0, k1];
  }

  /** Four expansions of ROUND, the halves taking turns. */
  method Four(t: Boxes, k0: Word, k1: Word, k2: Word, k3: Word, l: Word, r: Word) returns (yl: Word, yr: Word)
    ensures Pair(yl, yr) == Rounds(t, [k0, k1, k2, k3], Pair(l, r))
  {
    FourRounds(t, k0, k1, k2, k3, Pair(l, r));
    hide X, F, Rounds;
    yl, yr := l, r;
    yl := X(yl, k0); yr := X(yr, F(t, yl));
    yr := X(yr, k1); yl := X(yl, F(t, yr));
    yl := X(yl, k2); yr := X(yr, F(t, yl));
    yr := X(yr, k3); yl := X(yl, F(t, yr));
  }

  lemma SixteenKeys(t: Boxes, ks: seq<Word>, x: Pair)
    requires |ks| == 16
    ensures var y := Rounds(t, [ks[4], ks[5], ks[6], ks[7]], Rounds(t, [ks[0], ks[1], ks[2], ks[3]], x));
            Rounds(t, ks, x) == Rounds(t, [ks[12], ks[13], ks[14], ks[15]], Rounds(t, [ks[8], ks[9], ks[10], ks[11]], y))
  {
    hide Rounds;
    Quarters(ks);
    RoundsAppend(t, ks[..12], ks[12..], x);
    RoundsAppend(t, ks[..8], ks[8..12], x);
    RoundsAppend(t, ks[..4], ks[4..8], x);
    assert ks == ks[..12] + ks[12..] && ks[..12] == ks[..8] + ks[8..12] && ks[..8] == ks[..4] + ks[4..8];
  }

  lemma Quarters(ks: seq<Word>)
    requires |ks| == 16
    ensures ks[..4] == [ks[0], ks[1], ks[2], ks[3]] && ks[4..8] == [ks[4], ks[5], ks[6], ks[7]]
    ensures ks[8..12] == [ks[8], ks[9], ks[10], ks[11]] && ks[12..] == [ks[12], ks[13], ks[14], ks[15]]
  {}

  /** encrypt_block; source and destination may be the same. */
  method EncryptBlock(t: Boxes, p: seq<Word>, dst: array<Word>, src: array<Word>)
    requires |p| == 18 && dst.Length == 2 && src.Length == 2
    modifies dst
    ensures Pair(dst[0], dst[1]) == Encrypt(t, p, old(Pair(src[0], src[1])))
  {
    SixteenKeys(t, p[..16], Pair(src[0], src[1]));
    hide X, Rounds;
    var yl, yr := src[0], src[1];
    yl, yr := Four(t, p[0], p[1], p[2], p[3], yl, yr);
    yl, yr := Four(t, p[4], p[5], p[6], p[7], yl, yr);
    yl, yr := Four(t, p[8], p[9], p[10], p[11], yl, yr);
    yl, yr := Four(t, p[12], p[13], p[14], p[15], yl, yr);
    yl, yr := X(yl, p[16]), X(yr, p[17]);
    dst[0], dst[1] := yr, yl;
  }

  /** bf_decrypt on the words of a block: what was encrypted comes back. */
  method DecryptBlock(t: Boxes, p: seq<Word>, dst: array<Word>, src: array<Word>)
    requires |p| == 18 && dst.Length == 2 && src.Length == 2
    modifies dst
    ensures Pair(dst[0], dst[1]) == Decrypt(t, p, old(Pair(src[0], src[1])))
    ensures Encrypt(t, p, Pair(dst[0], dst[1])) == old(Pair(src[0], src[1]))
  {
    RoundTrip(t, p, Pair(src[0], src[1]));
    SixteenKeys(t, Reversed(p)[..16], Pair(src[0], src[1]));
    hide X, Rounds, Reversed, Encrypt;
    var yl, yr := src[0], src[1];
    yl, yr := Four(t, p[17], p[16], p[15], p[14], yl, yr);
    yl, yr := Four(t, p[13], p[12], p[11], p[10], yl, yr);
    yl, yr := Four(t, p[9], p[8], p[7], p[6], yl, yr);
    yl, yr := Four(t, p[5], p[4], p[3], p[2], yl, yr);
    yl, yr := X(yl, p[1]), X(yr, p[0]);
    dst[0], dst[1] := yr, yl;
  }
}
