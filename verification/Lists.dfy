/** Lists without repetition. */
module Lists {

  predicate NoDup<T(==)>(s: seq<T>) { forall i, j | 0 <= i < j < |s| :: s[i] != s[j] }

  function IndexOf<T(==)>(s: seq<T>, x: T): (i: nat)
    requires x in s
    ensures i < |s| && s[i] == x
  {
    if s[0] == x then 0 else 1 + IndexOf(s[1..], x)
  }

  function Without<T(==)>(s: seq<T>, x: T): seq<T> {
    if x in s then s[..IndexOf(s, x)] + s[IndexOf(s, x) + 1..] else s
  }

  function InsertAt<T>(s: seq<T>, k: nat, x: T): seq<T>
    requires k <= |s|
  {
    s[..k] + [x] + s[k..]
  }

  /** The list without x is the list with one place left out. */
  lemma WithoutAt<T>(s: seq<T>, x: T, i: nat)
    requires x in s && i < |s| - 1
    ensures |Without(s, x)| == |s| - 1 && Without(s, x)[i] == s[if i < IndexOf(s, x) then i else i + 1]
  {}

  lemma WithoutIs<T>(s: seq<T>, x: T)
    requires x in s
    ensures |Without(s, x)| == |s| - 1
    ensures forall i | 0 <= i < IndexOf(s, x) :: Without(s, x)[i] == s[i]
    ensures forall i | IndexOf(s, x) <= i < |s| - 1 :: Without(s, x)[i] == s[i + 1]
  {}

  lemma WithoutMembers<T>(s: seq<T>, x: T)
    requires NoDup(s)
    ensures NoDup(Without(s, x)) && forall y :: y in Without(s, x) <==> y in s && y != x
  {
    hide IndexOf;
    if x in s {
      var k := IndexOf(s, x);
      var r := Without(s, x);
      forall i, j | 0 <= i < j < |r|
        ensures r[i] != r[j]
      {
        WithoutAt(s, x, i);
        WithoutAt(s, x, j);
      }
      forall y
        ensures y in r <==> y in s && y != x
      {
        if y in s && y != x {
          var i :| 0 <= i < |s| && s[i] == y;
          assert r[if i < k then i else i - 1] == y;
        }
        if y in r {
          var i :| 0 <= i < |r| && r[i] == y;
          WithoutAt(s, x, i);
        }
      }
    }
  }

  lemma InsertAtIs<T>(s: seq<T>, k: nat, x: T)
    requires k <= |s|
    ensures |InsertAt(s, k, x)| == |s| + 1 && InsertAt(s, k, x)[k] == x
    ensures forall i | 0 <= i < k :: InsertAt(s, k, x)[i] == s[i]
    ensures forall i | k < i <= |s| :: InsertAt(s, k, x)[i] == s[i - 1]
  {}

  lemma InsertAtDef<T>(s: seq<T>, k: nat, x: T)
    requires k <= |s|
    ensures InsertAt(s, k, x) == s[..k] + [x] + s[k..]
  {}

  lemma InsertAtMembers<T>(s: seq<T>, k: nat, x: T)
    requires k <= |s|
    ensures forall y :: y in InsertAt(s, k, x) <==> y == x || y in s
    ensures NoDup(s) && x !in s ==> NoDup(InsertAt(s, k, x))
  {
    var r := InsertAt(s, k, x);
    forall y | y in s
      ensures y in r
    {
      var i :| 0 <= i < |s| && s[i] == y;
      assert r[if i < k then i else i + 1] == y;
    }
    assert r[k] == x;
  }

  function Reversed<T>(s: seq<T>): (r: seq<T>)
    ensures |r| == |s| && forall i | 0 <= i < |s| :: r[i] == s[|s| - 1 - i]
  {
    if s == [] then [] else Reversed(s[1..]) + [s[0]]
  }

  lemma Associate<T>(a: seq<T>, b: seq<T>, c: seq<T>)
    ensures a + (b + c) == (a + b) + c
  {}

  // ----- copying into an array

  function Filled<T>(n: nat, x: T): (s: seq<T>)
    ensures |s| == n && forall i | 0 <= i < n :: s[i] == x
  {
    seq(n, _ => x)
  }

  /** memcpy of the first n elements of src into dst: what dst then holds, and the elements that
      were written past its end. */
  function Copied<T>(dst: seq<T>, src: seq<T>, n: nat): (r: (seq<T>, seq<T>))
    requires n <= |src|
    ensures |r.0| == |dst| && |r.1| == if n <= |dst| then 0 else n - |dst|
  {
    if n <= |dst| then (src[..n] + dst[n..], []) else (src[..|dst|], src[|dst|..n])
  }

  method CopyInto<T>(dst: array<T>, src: array<T>, n: nat) returns (past: seq<T>)
    requires n <= src.Length && dst != src
    modifies dst
    ensures (dst[..], past) == Copied(old(dst[..]), src[..], n)
  {
    past := [];
    var i := 0;
    while i < n
      invariant i <= n
      invariant forall j | 0 <= j < dst.Length :: dst[j] == if j < i then src[j] else old(dst[j])
      invariant past == if i <= dst.Length then [] else src[dst.Length..i]
    {
      if i < dst.Length { dst[i] := src[i]; } else { past := past + [src[i]]; }
      i := i + 1;
    }
    ghost var goal := Copied(old(dst[..]), src[..], n).0;
    assert forall j | 0 <= j < dst.Length :: goal[j] == if j < n then src[j] else old(dst[j]);
    assert dst[..] == goal;
  }

  /** All of src copied into a new array filled with x. */
  method CopyToNew<T>(src: array<T>, size: nat, x: T) returns (dst: array<T>, past: seq<T>)
    ensures fresh(dst) && dst.Length == size
    ensures (dst[..], past) == Copied(Filled(size, x), src[..], src.Length)
    ensures size >= src.Length ==> forall i | 0 <= i < size :: dst[i] == if i < src.Length then src[i] else x
  {
    dst := new T[size](_ => x);
    assert dst[..] == Filled(size, x);
    past := CopyInto(dst, src, src.Length);
    assert forall i | 0 <= i < size :: dst[i] == dst[..][i];
  }
}
