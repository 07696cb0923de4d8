/** Partial completion of a request: blk_update_request, blk_rq_err_bytes and
    blk_end_request_err of block/blk-core.c. */
module Completion {
  import opened Lists

  datatype Vec = Vec(page: nat, off: nat, len: nat)

  /** The failfast bits REQ_FAILFAST_MASK covers. */
  datatype FailFast = Device | Transport | Driver

  /** A bio: `idx` is the first vector still to do, `size` what is left to do, `ff` its failfast
      bits and `uptodate` the flag BIO_UPTODATE. */
  datatype Bio = Bio(id: nat, sector: nat, size: nat, idx: nat, vecs: seq<Vec>, uptodate: bool, ff: set<FailFast>, write: bool)

  /** A bio whose bi_end_io was called, with the error it was given. */
  datatype Ended = Ended(id: nat, error: int)

  const EIO := 5

  // ----- bytes

  type Byte = (nat, nat)

  function VecBytes(v: Vec): (bs: seq<Byte>)
    ensures |bs| == v.len
  {
    seq(v.len, i => (v.page, v.off + i))
  }

  function Len(vs: seq<Vec>): nat { if vs == [] then 0 else vs[0].len + Len(vs[1..]) }

  function Bytes(vs: seq<Vec>): (bs: seq<Byte>)
    ensures |bs| == Len(vs)
  {
    if vs == [] then [] else VecBytes(vs[0]) + Bytes(vs[1..])
  }

  function Live(b: Bio): seq<Vec>
    requires b.idx <= |b.vecs|
  {
    b.vecs[b.idx..]
  }

  /** A bio with something to do whose size agrees with its vectors. */
  predicate Sound(b: Bio) { b.idx <= |b.vecs| && b.size == Len(Live(b)) && b.size > 0 }

  predicate AllSound(bs: seq<Bio>) { forall i | 0 <= i < |bs| :: Sound(bs[i]) }

  function Total(bs: seq<Bio>): nat { if bs == [] then 0 else bs[0].size + Total(bs[1..]) }

  function AllBytes(bs: seq<Bio>): (ys: seq<Byte>)
    requires AllSound(bs)
    ensures |ys| == Total(bs)
  {
    if bs == [] then [] else Bytes(Live(bs[0])) + AllBytes(bs[1..])
  }

  function Ids(bs: seq<Bio>): seq<nat> { if bs == [] then [] else [bs[0].id] + Ids(bs[1..]) }

  function EndedIds(es: seq<Ended>): seq<nat> { if es == [] then [] else [es[0].id] + EndedIds(es[1..]) }

  // ----- what n bytes of progress do to a chain of bios

  /** How far n bytes reach into vectors that hold more: whole vectors, and bytes of the next. */
  function Reach(vs: seq<Vec>, n: nat): (r: (nat, nat))
    requires n < Len(vs) || n == 0
    ensures r.0 <= |vs| && (vs != [] ==> r.0 < |vs| && r.1 <= vs[r.0].len)
  {
    if n == 0 then (0, 0)
    else if vs[0].len > n then (0, n)
    else var r := Reach(vs[1..], n - vs[0].len); (1 + r.0, r.1)
  }

  function Cut(v: Vec, r: nat): Vec
    requires r <= v.len
  {
    v.(off := v.off + r, len := v.len - r)
  }

  /** The vectors behind the first n bytes. */
  function After(vs: seq<Vec>, n: nat): seq<Vec>
    requires n < Len(vs)
  {
    var (k, r) := Reach(vs, n);
    [Cut(vs[k], r)] + vs[k + 1..]
  }

  function SectorsOf(n: nat): nat { n / 512 }

  predicate WholeSectors(n: nat) { n % 512 == 0 }

  /** req_bio_endio on a bio that is not finished, and the cursor moves after it. */
  function Advance(b: Bio, n: nat, error: int): Bio
    requires Sound(b) && n < b.size
  {
    if n == 0 then b
    else
      var (k, r) := Reach(Live(b), n);
      var at := b.idx + k;
      b.(size := b.size - n, sector := b.sector + SectorsOf(n), idx := at, uptodate := b.uptodate && error == 0,
         vecs := b.vecs[at := Cut(b.vecs[at], r)])
  }

  /** The error a finished bio is ended with. */
  function EndError(b: Bio, error: int): int { if error != 0 then error else if b.uptodate then 0 else -EIO }

  function Finish(bs: seq<Bio>, n: nat, error: int): (r: (seq<Bio>, seq<Ended>))
    requires AllSound(bs)
  {
    if bs == [] then ([], [])
    else if n >= bs[0].size then
      var r := Finish(bs[1..], n - bs[0].size, error);
      (r.0, [Ended(bs[0].id, EndError(bs[0], error))] + r.1)
    else ([Advance(bs[0], n, error)] + bs[1..], [])
  }

  // ----- the bytes left are the bytes behind n

  lemma CutBytes(v: Vec, r: nat)
    requires r <= v.len
    ensures VecBytes(Cut(v, r)) == VecBytes(v)[r..]
  {}

  lemma BytesCons(v: Vec, vs: seq<Vec>)
    ensures Bytes([v] + vs) == VecBytes(v) + Bytes(vs)
  {
    assert ([v] + vs)[1..] == vs;
  }

  lemma ReachStep(vs: seq<Vec>, nr: nat)
    requires vs != [] && 0 < nr < Len(vs) && vs[0].len <= nr
    ensures nr - vs[0].len < Len(vs[1..])
    ensures var r := Reach(vs[1..], nr - vs[0].len); Reach(vs, nr) == (1 + r.0, r.1)
  {}

  lemma AfterStep(vs: seq<Vec>, n: nat)
    requires n < Len(vs)
    ensures After(vs, n) == if n == 0 then vs
                            else if vs[0].len > n then [Cut(vs[0], n)] + vs[1..]
                            else After(vs[1..], n - vs[0].len)
  {
    if n > 0 && vs[0].len <= n {
      ReachStep(vs, n);
      hide Reach, Cut;
      var (k, r) := Reach(vs[1..], n - vs[0].len);
      assert vs[1..][k] == vs[k + 1] && vs[1..][k + 1..] == vs[k + 2..];
    } else {
      assert n == 0 ==> Cut(vs[0], 0) == vs[0] && [vs[0]] + vs[1..] == vs;
      hide Cut;
    }
  }

  lemma {:induction false} AfterBytes(vs: seq<Vec>, n: nat)
    requires n < Len(vs)
    ensures Bytes(After(vs, n)) == Bytes(vs)[n..]
  {
    hide VecBytes, Cut, After;
    AfterStep(vs, n);
    var v, rest := vs[0], vs[1..];
    if n == 0 {
      assert Bytes(vs)[0..] == Bytes(vs);
    } else if v.len > n {
      CutBytes(v, n);
      BytesCons(Cut(v, n), rest);
      assert (VecBytes(v) + Bytes(rest))[n..] == VecBytes(v)[n..] + Bytes(rest);
    } else {
      AfterBytes(rest, n - v.len);
      assert (VecBytes(v) + Bytes(rest))[n..] == Bytes(rest)[n - v.len..];
    }
  }

  lemma AdvanceLive(b: Bio, n: nat, error: int)
    requires Sound(b) && n < b.size
    ensures var b' := Advance(b, n, error); b'.idx <= |b'.vecs| && Live(b') == After(Live(b), n)
  {
    var b' := Advance(b, n, error);
    if n > 0 {
      var (k, r) := Reach(Live(b), n);
      var at := b.idx + k;
      assert Live(b)[k] == b.vecs[at] && Live(b)[k + 1..] == b.vecs[at + 1..];
      hide Cut;
      assert Live(b') == [Cut(b.vecs[at], r)] + b.vecs[at + 1..];
    } else {
      AfterStep(Live(b), 0);
    }
  }

  lemma AdvanceSound(b: Bio, n: nat, error: int)
    requires Sound(b) && n < b.size
    ensures var b' := Advance(b, n, error);
            Sound(b') && Bytes(Live(b')) == Bytes(Live(b))[n..] && b'.size == b.size - n && b'.id == b.id
  {
    AdvanceLive(b, n, error);
    AfterBytes(Live(b), n);
    hide Bytes, Live, After, Reach;
    assert |Bytes(After(Live(b), n))| == Len(After(Live(b), n));
  }

  /** n bytes of progress leave exactly the bytes behind n, end the bios they finish in order,
      and keep every bio accounted for. */
  lemma {:induction false} FinishSuffix(bs: seq<Bio>, n: nat, error: int)
    requires AllSound(bs)
    ensures var (left, ended) := Finish(bs, n, error);
            && AllSound(left)
            && AllBytes(left) == (if n >= Total(bs) then [] else AllBytes(bs)[n..])
            && Total(left) == (if n >= Total(bs) then 0 else Total(bs) - n)
            && (left == [] <==> n >= Total(bs))
            && EndedIds(ended) + Ids(left) == Ids(bs)
  {
    FinishBytes(bs, n, error);
    FinishIds(bs, n, error);
  }

  lemma {:induction false} FinishBytes(bs: seq<Bio>, n: nat, error: int)
    requires AllSound(bs)
    ensures var left := Finish(bs, n, error).0;
            && AllSound(left)
            && AllBytes(left) == (if n >= Total(bs) then [] else AllBytes(bs)[n..])
            && Total(left) == (if n >= Total(bs) then 0 else Total(bs) - n)
            && (left == [] <==> n >= Total(bs))
  {
    if bs != [] {
      FirstBytes(bs);
      hide AllBytes, Total, AllSound, Bytes, Live;
      var b, rest := bs[0], bs[1..];
      if n >= b.size {
        FinishGoesOn(bs, n, error);
        hide Finish;
        FinishBytes(rest, n - b.size, error);
        if n < Total(bs) { SuffixBehind(Bytes(Live(b)), AllBytes(rest), n); }
      } else {
        FinishStops(bs, n, error);
        hide Finish, Advance;
        FinishBytesInside(bs, n, error);
        SuffixInside(Bytes(Live(b)), AllBytes(rest), n);
      }
    }
  }

  lemma FinishBytesInside(bs: seq<Bio>, n: nat, error: int)
    requires AllSound(bs) && bs != [] && n < bs[0].size && AllSound(bs[1..]) && Sound(bs[0])
    ensures var left := [Advance(bs[0], n, error)] + bs[1..];
            && AllSound(left) && Total(left) == Total(bs) - n
            && AllBytes(left) == Bytes(Live(bs[0]))[n..] + AllBytes(bs[1..])
  {
    AdvanceSound(bs[0], n, error);
    var left := [Advance(bs[0], n, error)] + bs[1..];
    hide Advance, Live, Bytes, Sound;
    assert left[1..] == bs[1..];
    FirstBytes(left);
    FirstBytes(bs);
  }

  lemma SuffixBehind(a: seq<Byte>, b: seq<Byte>, n: nat)
    requires |a| <= n <= |a| + |b|
    ensures (a + b)[n..] == b[n - |a|..]
  {}

  lemma SuffixInside(a: seq<Byte>, b: seq<Byte>, n: nat)
    requires n <= |a|
    ensures (a + b)[n..] == a[n..] + b
  {}

  lemma FirstBytes(bs: seq<Bio>)
    requires AllSound(bs) && bs != []
    ensures AllSound(bs[1..]) && Sound(bs[0]) && |Bytes(Live(bs[0]))| == bs[0].size
    ensures AllBytes(bs) == Bytes(Live(bs[0])) + AllBytes(bs[1..]) && Total(bs) == bs[0].size + Total(bs[1..])
  {}

  lemma {:induction false} FinishIds(bs: seq<Bio>, n: nat, error: int)
    requires AllSound(bs)
    ensures EndedIds(Finish(bs, n, error).1) + Ids(Finish(bs, n, error).0) == Ids(bs)
  {
    hide Sound, Advance;
    if bs != [] {
      var b, rest := bs[0], bs[1..];
      if n >= b.size {
        FinishIds(rest, n - b.size, error);
      } else {
        AdvanceSound(b, n, error);
        assert ([Advance(b, n, error)] + rest)[1..] == rest;
      }
    }
  }

  // ----- two calls do what one does

  /** What a request still has to do: the vectors already done no longer matter. */
  function Todo(b: Bio): Bio
    requires b.idx <= |b.vecs|
  {
    b.(vecs := Live(b), idx := 0)
  }

  function TodoAll(bs: seq<Bio>): seq<Bio>
    requires AllSound(bs)
  {
    if bs == [] then [] else [Todo(bs[0])] + TodoAll(bs[1..])
  }

  lemma AfterLen(vs: seq<Vec>, n: nat)
    requires n < Len(vs)
    ensures Len(After(vs, n)) == Len(vs) - n
  {
    AfterBytes(vs, n);
    hide Bytes, After;
    assert |Bytes(After(vs, n))| == Len(After(vs, n));
  }

  lemma {:induction false} AfterTwice(vs: seq<Vec>, n: nat, m: nat)
    requires n + m < Len(vs)
    ensures Len(After(vs, n)) == Len(vs) - n
    ensures After(After(vs, n), m) == After(vs, n + m)
  {
    hide After, Reach, Bytes;
    AfterLen(vs, n);
    AfterStep(vs, n);
    var v, rest := vs[0], vs[1..];
    if n == 0 || m == 0 {
      AfterStep(After(vs, n), m);
    } else if v.len > n {
      AfterStep(vs, n + m);
      AfterStep([Cut(v, n)] + rest, m);
      assert ([Cut(v, n)] + rest)[0] == Cut(v, n) && ([Cut(v, n)] + rest)[1..] == rest;
    } else {
      AfterStep(vs, n + m);
      AfterTwice(rest, n - v.len, m);
    }
  }

  /** What a call that stops inside a bio leaves to do. */
  lemma AdvanceTodo(b: Bio, n: nat, error: int)
    requires Sound(b) && n < b.size
    ensures Sound(Advance(b, n, error))
    ensures Todo(Advance(b, n, error)) ==
              Bio(b.id, b.sector + SectorsOf(n), b.size - n, 0, After(Live(b), n), b.uptodate && (error == 0 || n == 0), b.ff, b.write)
  {
    AdvanceSound(b, n, error);
    AdvanceLive(b, n, error);
    hide Live, Bytes, After, Reach, Cut, Sound;
  }

  lemma Sectors(n: nat, m: nat)
    requires WholeSectors(n) || WholeSectors(m)
    ensures SectorsOf(n) + SectorsOf(m) == SectorsOf(n + m)
  {}

  lemma AdvanceTwice(b: Bio, n: nat, m: nat, error: int)
    requires Sound(b) && n + m < b.size && WholeSectors(m)
    requires Sound(Advance(b, n, error)) && Advance(b, n, error).size == b.size - n
    ensures Sound(Advance(b, n + m, error)) && Sound(Advance(Advance(b, n, error), m, error))
    ensures Todo(Advance(Advance(b, n, error), m, error)) == Todo(Advance(b, n + m, error))
  {
    hide Advance, After, SectorsOf, WholeSectors, Reach, Len, Live;
    var b' := Advance(b, n, error);
    AdvanceTodo(b, n, error);
    AdvanceTodo(b, n + m, error);
    AdvanceTodo(b', m, error);
    AfterTwice(Live(b), n, m);
    Sectors(n, m);
    var t := Todo(b');
    assert t.vecs == Live(b') && t.sector == b'.sector && t.id == b'.id && t.uptodate == b'.uptodate && t.ff == b'.ff;
  }

  lemma FinishSound(bs: seq<Bio>, n: nat, error: int)
    requires AllSound(bs)
    ensures AllSound(Finish(bs, n, error).0)
  {
    FinishSuffix(bs, n, error);
  }

  lemma FinishGoesOn(bs: seq<Bio>, n: nat, error: int)
    requires AllSound(bs) && bs != [] && n >= bs[0].size
    ensures AllSound(bs[1..])
    ensures var r := Finish(bs[1..], n - bs[0].size, error);
            Finish(bs, n, error) == (r.0, [Ended(bs[0].id, EndError(bs[0], error))] + r.1)
  {}

  /** Progress adds up: n bytes and then m, a multiple of the sector size, leave the same work, and
      end the same bios with the same errors, as n + m at once. */
  lemma {:induction false} FinishTwice(bs: seq<Bio>, n: nat, m: nat, error: int)
    requires AllSound(bs) && WholeSectors(m)
    ensures var (left, ended) := Finish(bs, n, error);
            && AllSound(left) && AllSound(Finish(left, m, error).0) && AllSound(Finish(bs, n + m, error).0)
            && TodoAll(Finish(left, m, error).0) == TodoAll(Finish(bs, n + m, error).0)
            && ended + Finish(left, m, error).1 == Finish(bs, n + m, error).1
  {
    hide Finish, AllSound, WholeSectors, TodoAll, EndError;
    FinishSound(bs, n, error);
    FinishSound(Finish(bs, n, error).0, m, error);
    FinishSound(bs, n + m, error);
    if bs == [] {
      FinishEmpty(n, error); FinishEmpty(m, error); FinishEmpty(n + m, error);
    } else if n >= bs[0].size {
      var b, rest := bs[0], bs[1..];
      FinishGoesOn(bs, n, error);
      FinishGoesOn(bs, n + m, error);
      FinishTwice(rest, n - b.size, m, error);
      var r := Finish(rest, n - b.size, error);
      Associate([Ended(b.id, EndError(b, error))], r.1, Finish(r.0, m, error).1);
    } else {
      FinishStops(bs, n, error);
      FinishTwiceHead(bs, n, m, error);
    }
  }

  lemma FinishEmpty(n: nat, error: int)
    ensures Finish([], n, error) == ([], [])
  {}

  lemma FinishStops(bs: seq<Bio>, n: nat, error: int)
    requires AllSound(bs) && bs != [] && n < bs[0].size
    ensures Finish(bs, n, error) == ([Advance(bs[0], n, error)] + bs[1..], [])
  {}

  /** The same when the first call stops inside the first bio. */
  lemma FinishTwiceHead(bs: seq<Bio>, n: nat, m: nat, error: int)
    requires AllSound(bs) && WholeSectors(m) && bs != [] && n < bs[0].size
    requires AllSound(Finish(bs, n, error).0) && AllSound(Finish(Finish(bs, n, error).0, m, error).0)
    requires AllSound(Finish(bs, n + m, error).0)
    ensures TodoAll(Finish(Finish(bs, n, error).0, m, error).0) == TodoAll(Finish(bs, n + m, error).0)
    ensures Finish(Finish(bs, n, error).0, m, error).1 == Finish(bs, n + m, error).1
  {
    var b, rest := bs[0], bs[1..];
    AdvanceSound(b, n, error);
    var b' := Advance(b, n, error);
    assert b'.uptodate == (b.uptodate && (error == 0 || n == 0));
    assert ([b'] + rest)[1..] == rest;
    if n + m < b.size {
      AdvanceTwice(b, n, m, error);
      hide Advance;
      var x, y := Advance(b', m, error), Advance(b, n + m, error);
      assert ([x] + rest)[1..] == rest && ([y] + rest)[1..] == rest;
    }
  }

  /** What blk_update_request reads and changes of a request. */
  datatype Rest = Rest(bios: seq<Bio>, dataLen: nat, sector: nat, ff: set<FailFast>, mixed: bool)

  /** A request after n bytes of progress; one that is done keeps its sector and failfast bits. */
  function Progress(r: Rest, n: nat, error: int): Rest
    requires AllSound(r.bios)
  {
    var left := Finish(r.bios, n, error).0;
    if n < r.dataLen && left != [] then
      Rest(left, r.dataLen - n, r.sector + SectorsOf(n), if r.mixed then left[0].ff else r.ff, r.mixed)
    else r.(bios := left, dataLen := 0)
  }

  /** While data is left, two calls leave the request that one call leaves: n bytes and then m, a
      multiple of the sector size. */
  lemma ProgressTwice(r: Rest, n: nat, m: nat, error: int)
    requires AllSound(r.bios) && r.dataLen == Total(r.bios) && WholeSectors(m) && n + m < r.dataLen
    ensures var a := Progress(r, n, error);
            && AllSound(a.bios) && AllSound(Progress(a, m, error).bios) && AllSound(Progress(r, n + m, error).bios)
            && var twice, once := Progress(a, m, error), Progress(r, n + m, error);
               twice.(bios := TodoAll(twice.bios)) == once.(bios := TodoAll(once.bios))
  {
    hide Finish, Progress, TodoAll, AllSound, Total, SectorsOf, WholeSectors, Todo;
    ProgressIs(r, n, error);
    ProgressIs(r, n + m, error);
    var a := Progress(r, n, error);
    ProgressIs(a, m, error);
    FinishTwice(r.bios, n, m, error);
    Sectors(n, m);
    FirstTodo(Finish(a.bios, m, error).0);
    FirstTodo(Finish(r.bios, n + m, error).0);
  }

  lemma ProgressIs(r: Rest, n: nat, error: int)
    requires AllSound(r.bios) && r.dataLen == Total(r.bios) && n < r.dataLen
    ensures var left := Finish(r.bios, n, error).0;
            && left != [] && AllSound(left) && Total(left) == r.dataLen - n
            && Progress(r, n, error) == Rest(left, r.dataLen - n, r.sector + SectorsOf(n), if r.mixed then left[0].ff else r.ff, r.mixed)
  {
    hide Finish, AllBytes, AllSound, Total, SectorsOf;
    FinishBytes(r.bios, n, error);
  }

  lemma FirstTodo(bs: seq<Bio>)
    requires AllSound(bs) && bs != []
    ensures TodoAll(bs) != [] && TodoAll(bs)[0].ff == bs[0].ff
  {}

  // ----- the errors bios are ended with

  /** The bios a call ends are the first ones, each with the call's error or, if it reports none, with
      0 when the bio is up to date and -EIO when an earlier part of it failed. */
  lemma {:induction false} FinishErrors(bs: seq<Bio>, n: nat, error: int, i: nat)
    requires AllSound(bs) && i < |Finish(bs, n, error).1|
    ensures EndsWith(bs, error, Finish(bs, n, error).1[i], i)
  {
    hide Sound, Advance;
    if i > 0 {
      FinishErrors(bs[1..], n - bs[0].size, error, i - 1);
      assert bs[i] == bs[1..][i - 1];
    }
  }

  /** How bio i of a chain is ended by a call. */
  predicate EndsWith(bs: seq<Bio>, error: int, e: Ended, i: nat) {
    && i < |bs| && e.id == bs[i].id
    && (error != 0 ==> e.error == error)
    && (error == 0 ==> e.error == if bs[i].uptodate then 0 else -5)
  }

  /** Everything from some place on was ended with this error. */
  predicate EndedWith(es: seq<Ended>, from: nat, error: int) { forall i | from <= i < |es| :: es[i].error == error }

  lemma NoneEndedYet(es: seq<Ended>, error: int)
    ensures EndedWith(es, |es|, error)
  {}

  lemma StillEndedWith(was: seq<Ended>, es: seq<Ended>, from: nat, bs: seq<Bio>, error: int)
    requires from <= |was| <= |es| && es[..|was|] == was && EndedWith(was, from, error) && error != 0
    requires forall k | |was| <= k < |es| :: EndsWith(bs, error, es[k], k - |was|)
    ensures EndedWith(es, from, error)
  {
    forall i | from <= i < |es|
      ensures es[i].error == error
    {
      if i < |was| { assert es[i] == es[..|was|][i]; }
    }
  }

  lemma AllEndWith(bs: seq<Bio>, n: nat, error: int)
    requires AllSound(bs)
    ensures forall i | 0 <= i < |Finish(bs, n, error).1| :: EndsWith(bs, error, Finish(bs, n, error).1[i], i)
  {
    hide Finish, Sound;
    forall i | 0 <= i < |Finish(bs, n, error).1|
      ensures EndsWith(bs, error, Finish(bs, n, error).1[i], i)
    {
      FinishErrors(bs, n, error, i);
    }
  }

  /** What a series of calls, each with an error and a number of bytes, leaves and ends. */
  function Series(bs: seq<Bio>, steps: seq<(int, nat)>): (seq<Bio>, seq<Ended>)
    requires AllSound(bs)
    decreases |steps|
  {
    if steps == [] then (bs, [])
    else
      var f := Finish(bs, steps[0].1, steps[0].0);
      FinishSound(bs, steps[0].1, steps[0].0);
      var r := Series(f.0, steps[1..]);
      (r.0, f.1 + r.1)
  }

  lemma {:induction false} SeriesSnoc(bs: seq<Bio>, steps: seq<(int, nat)>, step: (int, nat))
    requires AllSound(bs)
    ensures var (left, ended) := Series(bs, steps);
            && AllSound(left)
            && var f := Finish(left, step.1, step.0); Series(bs, steps + [step]) == (f.0, ended + f.1)
    decreases |steps|
  {
    hide Finish, AllSound;
    if steps == [] {
      assert [] + [step] == [step] && [step][1..] == [];
      FinishSound(bs, step.1, step.0);
      var f := Finish(bs, step.1, step.0);
      assert f.1 + [] == f.1 && [] + f.1 == f.1;
    } else {
      var f := Finish(bs, steps[0].1, steps[0].0);
      FinishSound(bs, steps[0].1, steps[0].0);
      SeriesSnoc(f.0, steps[1..], step);
      assert (steps + [step])[1..] == steps[1..] + [step] && (steps + [step])[0] == steps[0];
      var r := Series(f.0, steps[1..]);
      Associate(f.1, r.1, Finish(r.0, step.1, step.0).1);
    }
  }

  /** Where bio i starts among the bytes of a chain. */
  function StartOf(bs: seq<Bio>, i: nat): nat
    requires i <= |bs|
  {
    if i == 0 then 0 else bs[0].size + StartOf(bs[1..], i - 1)
  }

  /** Some call that reports an error covers a byte from lo to hi, when the first starts at `at`. */
  predicate Fails(steps: seq<(int, nat)>, at: nat, lo: nat, hi: nat) {
    steps != [] &&
    ((steps[0].0 != 0 && at < hi && lo < at + steps[0].1 && steps[0].1 > 0) || Fails(steps[1..], at + steps[0].1, lo, hi))
  }

  lemma {:induction false} NoneFails(steps: seq<(int, nat)>, at: nat, lo: nat, hi: nat)
    requires hi <= at
    ensures !Fails(steps, at, lo, hi)
    decreases |steps|
  {
    if steps != [] { NoneFails(steps[1..], at + steps[0].1, lo, hi); }
  }

  /** Only the bytes behind the first call matter to the others. */
  lemma {:induction false} FailsLater(steps: seq<(int, nat)>, n: nat, at: nat, lo: nat, hi: nat)
    requires n <= at
    ensures Fails(steps, at, lo, hi) == Fails(steps, at - n, if lo <= n then 0 else lo - n, if hi <= n then 0 else hi - n)
    decreases |steps|
  {
    if steps != [] { FailsLater(steps[1..], n, at + steps[0].1, lo, hi); }
  }

  /** A bio that n bytes end is all among them. */
  lemma {:induction false} EndedBefore(bs: seq<Bio>, n: nat, error: int, i: nat)
    requires AllSound(bs) && i < |bs|
    ensures i < |Finish(bs, n, error).1| <==> StartOf(bs, i) + bs[i].size <= n
    decreases |bs|
  {
    hide Sound, Advance;
    if i > 0 && n >= bs[0].size {
      EndedBefore(bs[1..], n - bs[0].size, error, i - 1);
      assert bs[i] == bs[1..][i - 1];
    }
  }

  /** A bio that is left has its bytes behind n to do, and has failed in part if the call failed and
      reached into it. */
  lemma {:induction false} LeftAt(bs: seq<Bio>, n: nat, error: int, j: nat)
    requires AllSound(bs) && j < |Finish(bs, n, error).0|
    ensures var (left, ended) := Finish(bs, n, error); var i := |ended| + j;
            && i < |bs| && left[j].id == bs[i].id && left[j].write == bs[i].write && left[j].ff == bs[i].ff
            && var lo, hi := StartOf(bs, i), StartOf(bs, i) + bs[i].size;
               && StartOf(left, j) == (if lo <= n then 0 else lo - n) && StartOf(left, j) + left[j].size == hi - n
               && (left[j].uptodate <==> bs[i].uptodate && (error == 0 || n <= lo))
    decreases |bs|
  {
    hide Sound;
    var b, rest := bs[0], bs[1..];
    if n >= b.size {
      LeftAt(rest, n - b.size, error, j);
      var i := |Finish(rest, n - b.size, error).1| + j;
      assert rest[i] == bs[i + 1];
    } else {
      AdvanceSound(b, n, error);
      var left := [Advance(b, n, error)] + rest;
      assert left[1..] == rest;
      if j > 0 { assert left[j] == rest[j - 1] && bs[j] == rest[j - 1]; }
    }
  }

  /** Over any series of calls, a bio that was up to date is ended with 0 iff no call that reported an
      error covered any of its bytes. */
  lemma {:induction false} SeriesErrors(bs: seq<Bio>, steps: seq<(int, nat)>, i: nat)
    requires AllSound(bs) && i < |Series(bs, steps).1|
    ensures var e := Series(bs, steps).1[i];
            && i < |bs| && e.id == bs[i].id
            && (e.error == 0 <==> bs[i].uptodate && !Fails(steps, 0, StartOf(bs, i), StartOf(bs, i) + bs[i].size))
    decreases |steps|
  {
    hide Finish, Sound, StartOf;
    var error, n := steps[0].0, steps[0].1;
    var (left, ended) := Finish(bs, n, error);
    FinishSound(bs, n, error);
    if i < |ended| {
      FinishErrors(bs, n, error, i);
      EndedBefore(bs, n, error, i);
      SizePositive(bs[i]);
      NoneFails(steps[1..], n, StartOf(bs, i), StartOf(bs, i) + bs[i].size);
    } else {
      var j := i - |ended|;
      SeriesErrors(left, steps[1..], j);
      LeftAt(bs, n, error, j);
      FailsLater(steps[1..], n, n, StartOf(bs, i), StartOf(bs, i) + bs[i].size);
    }
  }

  // ----- failing up to the next failure boundary

  /** The leading bios that may fail together: those with all the request's failfast bits. */
  function Eager(bs: seq<Bio>, ff: set<FailFast>): nat {
    if bs == [] || !(ff <= bs[0].ff) then 0 else bs[0].size + Eager(bs[1..], ff)
  }

  /** Up to bio k all have the bits, and it has not. */
  predicate FailTogether(bs: seq<Bio>, ff: set<FailFast>, k: nat) {
    k <= |bs| && (forall i | 0 <= i < k :: ff <= bs[i].ff) && (k < |bs| ==> !(ff <= bs[k].ff))
  }

  lemma {:induction false} EagerIs(bs: seq<Bio>, ff: set<FailFast>, k: nat)
    requires FailTogether(bs, ff, k)
    ensures Eager(bs, ff) == Total(bs[..k])
    decreases |bs|
  {
    if k > 0 {
      EagerIs(bs[1..], ff, k - 1);
      assert bs[..k][1..] == bs[1..][..k - 1];
    }
  }

  lemma {:induction false} EagerAtMostTotal(bs: seq<Bio>, ff: set<FailFast>)
    ensures Eager(bs, ff) <= Total(bs)
  {
    if bs != [] { EagerAtMostTotal(bs[1..], ff); }
  }

  // ----- the request, changed in place

  class Request {
    var bios: seq<Bio>
    var dataLen: nat
    var sector: nat
    var ff: set<FailFast>
    var mixed: bool
    ghost var ended: seq<Ended>

    /** The request's length is that of its bios, and the failfast bits of a mixed request are
        those of its first bio at most. */
    ghost predicate Valid()
      reads this
    {
      AllSound(bios) && dataLen == Total(bios) && (mixed && bios != [] ==> ff <= bios[0].ff)
    }

    ghost function View(): Rest
      reads this
    {
      Rest(bios, dataLen, sector, ff, mixed)
    }

    constructor (bios: seq<Bio>, sector: nat, ff: set<FailFast>, mixed: bool)
      requires AllSound(bios) && (mixed && bios != [] ==> ff <= bios[0].ff)
      ensures Valid() && View() == Rest(bios, Total(bios), sector, ff, mixed) && ended == []
    {
      this.bios, this.dataLen, this.sector, this.ff, this.mixed, this.ended := bios, Total(bios), sector, ff, mixed, [];
    }

    /** The end of blk_update_request for a bio that is not finished. */
    method AdvanceHead(k: nat, done: nat, r: nat, error: int)
      requires bios != [] && Sound(bios[0]) && 0 < done < bios[0].size && (k, r) == Reach(Live(bios[0]), done)
      modifies this`bios
      ensures bios == old([Advance(bios[0], done, error)] + bios[1..])
    {
      var bio := bios[0];
      if error != 0 { bio := bio.(uptodate := false); }
      bio := bio.(size := bio.size - done, sector := bio.sector + SectorsOf(done));
      bio := bio.(idx := bio.idx + k);
      var v := bio.vecs[bio.idx];
      bio := bio.(vecs := bio.vecs[bio.idx := v.(off := v.off + r, len := v.len - r)]);
      bios := [bio] + bios[1..];
    }

    /** The loop of blk_update_request: k vectors of the first bio are done, `done` bytes in all,
        and nr bytes reach into the next one. */
    method CompleteBytes(nrBytes: nat, error: int) returns (k: nat, done: nat, nr: nat, total: nat)
      requires AllSound(bios) && bios != []
      modifies this`bios, this`ended
      ensures AllSound(bios) && ended == old(ended) + old(Finish(bios, nrBytes, error).1)
      ensures bios == [] ==> old(Finish(bios, nrBytes, error).0) == []
      ensures bios != [] ==>
                && total == nrBytes && done < bios[0].size
                && (done > 0 ==> (k, nr) == Reach(Live(bios[0]), done))
                && old(Finish(bios, nrBytes, error).0) == [Advance(bios[0], done, error)] + bios[1..]
    {
      hide Sound, Reach, Live, Advance, Finish, EndError, Midway, Len;
      ghost var goal, was := Finish(bios, nrBytes, error), ended;
      k, done, nr, total := 0, 0, nrBytes, 0;
      ghost var e: seq<Ended> := [];
      assert [] + goal.1 == goal.1;
      while bios != []
        invariant AllSound(bios) && total + nr == nrBytes && ended == was + e
        invariant k == 0 ==> done == 0
        invariant bios != [] && k > 0 ==> nr > 0 && Midway(bios[0], k, done, nr)
        invariant var f := Finish(bios, done + nr, error); goal == (f.0, e + f.1)
        decreases |bios|, if bios == [] then 0 else |bios[0].vecs| - k
      {
        var bio := bios[0];
        var nbytes;
        if k == 0 && nr < bio.size { MidwayStart(bio, nr); }
        if nr >= bio.size {
          if k > 0 { MidwayBound(bio, k, done, nr); }
          nbytes := bio.size;
          FinishGoesOn(bios, nr, error);
          Associate(e, [Ended(bio.id, EndError(bio, error))], Finish(bios[1..], nr - bio.size, error).1);
          ended := ended + [Ended(bio.id, EndError(bio, error))];
          e := e + [Ended(bio.id, EndError(bio, error))];
          bios := bios[1..];
          k, done := 0, 0;
        } else {
          MidwayIndex(bio, k, done, nr);
          nbytes := bio.vecs[bio.idx + k].len;
          if nbytes > nr {
            MidwayStop(bio, k, done, nr);
            done := done + nr;
            total := total + nr;
            break;
          }
          if nr > 0 { MidwayStep(bio, k, done, nr); }
          k := k + 1;
          done := done + nbytes;
        }
        total := total + nbytes;
        nr := nr - nbytes;
        if bios != [] && nr <= 0 {
          if k > 0 && done > 0 { MidwayZero(bio, k, done); }
          break;
        }
      }
      if bios != [] {
        SizePositive(bios[0]);
        FinishStops(bios, done, error);
        assert e + [] == e;
      } else {
        FinishEmpty(done + nr, error);
        assert e + [] == e;
      }
    }

    /** blk_update_request: false when no data is left. What is left is exactly what n bytes of
        progress leave, so its "request botched" repair never happens. */
    method UpdateRequest(error: int, nrBytes: nat) returns (pending: bool)
      requires Valid()
      modifies this
      ensures Valid() && mixed == old(mixed)
      ensures View() == Progress(old(View()), nrBytes, error)
      ensures (bios, ended) == old((Finish(bios, nrBytes, error).0, ended + Finish(bios, nrBytes, error).1))
      ensures pending <==> nrBytes < old(dataLen)
      ensures AllBytes(bios) == old(if nrBytes < dataLen then AllBytes(bios)[nrBytes..] else [])
      ensures EndedIds(ended) + Ids(bios) == old(EndedIds(ended) + Ids(bios))
      ensures |ended| >= |old(ended)| && ended[..|old(ended)|] == old(ended)
      ensures forall k | |old(ended)| <= k < |ended| :: EndsWith(old(bios), error, ended[k], k - |old(ended)|)
      ensures sector == old(sector) + if pending then SectorsOf(nrBytes) else 0
      ensures ff == if pending && mixed then bios[0].ff else old(ff)
    {
      hide Finish, AllBytes, Sound, Advance, SectorsOf, Reach, EndedIds, Ids, EndsWith;
      FinishSuffix(bios, nrBytes, error);
      AllEndWith(bios, nrBytes, error);
      EndedIdsAppend(ended, Finish(bios, nrBytes, error).1);
      Associate(EndedIds(ended), EndedIds(Finish(bios, nrBytes, error).1), Ids(Finish(bios, nrBytes, error).0));
      if bios == [] {
        FinishEmpty(nrBytes, error);
        assert ended + [] == ended;
        return false;
      }
      var k, done, nr, total := CompleteBytes(nrBytes, error);
      if bios == [] {
        dataLen := 0;
        return false;
      }
      if done != 0 {
        AdvanceHead(k, done, nr, error);
      } else {
        assert [Advance(bios[0], 0, error)] + bios[1..] == bios by { AdvanceNothing(bios[0], error); }
      }
      dataLen := dataLen - total;
      sector := sector + SectorsOf(total);
      if mixed { ff := bios[0].ff; }
      HeadAtMostTotal(bios);
      assert dataLen >= bios[0].vecs[bios[0].idx].len;
      pending := true;
    }

    /** blk_rq_err_bytes: how much of the request fails together. Its BUG_ON never fires: on a
        request with data the answer is positive. */
    method ErrBytes() returns (bytes: nat, ghost k: nat)
      requires Valid()
      ensures bytes == if mixed then Eager(bios, ff) else dataLen
      ensures mixed ==> FailTogether(bios, ff, k) && bytes == Total(bios[..k])
      ensures bytes <= dataLen && (dataLen > 0 ==> bytes > 0)
    {
      EagerAtMostTotal(bios, ff);
      if !mixed { return dataLen, 0; }
      bytes := 0;
      var i := 0;
      assert bios[0..] == bios;
      while i < |bios| && ff <= bios[i].ff
        invariant i <= |bios| && bytes + Eager(bios[i..], ff) == Eager(bios, ff)
        invariant forall j | 0 <= j < i :: ff <= bios[j].ff
        decreases |bios| - i
      {
        assert bios[i..][1..] == bios[i + 1..];
        bytes := bytes + bios[i].size;
        i := i + 1;
      }
      k := i;
      EagerIs(bios, ff, k);
    }

    /** A driver that fails a request piece by piece with blk_end_request_err gets to its end,
        and every bio has then been ended. */
    method FailPiecewise(error: int)
      requires Valid()
      modifies this
      ensures bios == [] && dataLen == 0
      ensures EndedIds(ended) == old(EndedIds(ended) + Ids(bios))
      ensures |ended| >= |old(ended)| && (error != 0 ==> EndedWith(ended, |old(ended)|, error))
    {
      hide EndedWith, EndsWith, Finish, AllBytes, Sound, EndedIds, Ids, Eager, SectorsOf, FailTogether, Progress;
      NothingLeft();
      var pending := bios != [];
      assert EndedWith(ended, |ended|, error) by { NoneEndedYet(ended, error); }
      while pending
        invariant Valid() && (pending <==> bios != [])
        invariant EndedIds(ended) + Ids(bios) == old(EndedIds(ended) + Ids(bios))
        invariant |ended| >= |old(ended)| && (error != 0 ==> EndedWith(ended, |old(ended)|, error))
        decreases dataLen
      {
        HasData(bios);
        var bytes, _ := ErrBytes();
        ghost var was, bs := ended, bios;
        FinishSuffix(bios, bytes, error);
        pending := UpdateRequest(error, bytes);
        if error != 0 { StillEndedWith(was, ended, |old(ended)|, bs, error); }
      }
      assert EndedIds(ended) + [] == EndedIds(ended);
    }
  }

  lemma HasData(bs: seq<Bio>)
    requires AllSound(bs) && bs != []
    ensures Total(bs) > 0
  {}

  lemma NothingLeft()
    ensures Ids([]) == [] && Total([]) == 0
  {}

  lemma {:induction false} EndedIdsAppend(a: seq<Ended>, b: seq<Ended>)
    ensures EndedIds(a + b) == EndedIds(a) + EndedIds(b)
  {
    if a == [] {
      assert a + b == b;
    } else {
      EndedIdsAppend(a[1..], b);
      assert (a + b)[1..] == a[1..] + b;
      Associate([a[0].id], EndedIds(a[1..]), EndedIds(b));
    }
  }

  lemma AdvanceNothing(b: Bio, error: int)
    requires Sound(b)
    ensures Advance(b, 0, error) == b
  {}

  /** The first vector to do is no longer than the request. */
  lemma HeadAtMostTotal(bs: seq<Bio>)
    requires AllSound(bs) && bs != []
    ensures bs[0].idx < |bs[0].vecs| && bs[0].vecs[bs[0].idx].len <= Total(bs)
  {
    assert Live(bs[0]) != [] && Live(bs[0])[0] == bs[0].vecs[bs[0].idx];
  }

  lemma SizePositive(b: Bio)
    requires Sound(b)
    ensures b.size > 0
  {}

  // ----- where the loop is inside a bio

  /** done bytes are the first k vectors, and nr more stay inside the bio. */
  ghost predicate Midway(b: Bio, k: nat, done: nat, nr: nat) {
    && Sound(b) && done + nr < b.size && k <= |Live(b)| && nr < Len(Live(b)[k..])
    && Reach(Live(b), done + nr) == (k + Reach(Live(b)[k..], nr).0, Reach(Live(b)[k..], nr).1)
  }

  lemma MidwayStart(b: Bio, nr: nat)
    requires Sound(b) && nr < b.size
    ensures Midway(b, 0, 0, nr)
  {
    assert Live(b)[0..] == Live(b);
  }

  lemma MidwayBound(b: Bio, k: nat, done: nat, nr: nat)
    requires Midway(b, k, done, nr)
    ensures done + nr < b.size
  {}

  lemma MidwayIndex(b: Bio, k: nat, done: nat, nr: nat)
    requires Midway(b, k, done, nr)
    ensures b.idx + k < |b.vecs| && Live(b)[k] == b.vecs[b.idx + k] && k < |Live(b)|
  {}

  lemma MidwayStop(b: Bio, k: nat, done: nat, nr: nat)
    requires Midway(b, k, done, nr) && k < |Live(b)| && Live(b)[k].len > nr
    ensures Reach(Live(b), done + nr) == (k, nr) && done + nr < b.size
  {}

  lemma MidwayStep(b: Bio, k: nat, done: nat, nr: nat)
    requires Midway(b, k, done, nr) && k < |Live(b)| && 0 < nr && Live(b)[k].len <= nr
    ensures Midway(b, k + 1, done + Live(b)[k].len, nr - Live(b)[k].len)
  {
    hide Live, Reach, Len;
    var vs := Live(b)[k..];
    assert vs[0] == Live(b)[k] && vs[1..] == Live(b)[k + 1..];
    ReachStep(vs, nr);
  }

  lemma MidwayZero(b: Bio, k: nat, done: nat)
    requires Midway(b, k, done, 0)
    ensures Reach(Live(b), done) == (k, 0) && done < b.size
  {}
}
