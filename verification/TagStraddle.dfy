/** A depth whose last two tags, those kept for sync requests, are bits of different words: a sync
    request can read one while another request holds the first, and the other after that request
    gave it back and a third took the second. */
module TagStraddle {
  import opened Arithmetic
  import opened Tags
  import opened TagTheorems

  ghost predicate Goes(w: World, s: Shared, run: seq<Action>, end: Shared) {
    IsRun(w, s, run, end) && forall i | 0 <= i < |run| :: KeepsDepth(run[i])
  }

  lemma One(w: World, s: Shared, a: Action)
    requires Enabled(w, s, a) && KeepsDepth(a)
    ensures Goes(w, s, [a], Apply(w, s, a))
  {
    hide Enabled, Apply;
    assert [a][1..] == [] && IsRun(w, Apply(w, s, a), [], Apply(w, s, a));
  }

  /** One more action. */
  lemma Next(w: World, s: Shared, run: seq<Action>, m: Shared, a: Action)
    requires Goes(w, s, run, m) && Enabled(w, m, a) && KeepsDepth(a)
    ensures Goes(w, s, run + [a], Apply(w, m, a))
  {
    hide Goes, Enabled, Apply;
    One(w, m, a);
    Then(w, s, run, m, [a], Apply(w, m, a));
  }

  lemma {:induction false} Then(w: World, s: Shared, a: seq<Action>, m: Shared, b: seq<Action>, e: Shared)
    requires Goes(w, s, a, m) && Goes(w, m, b, e)
    ensures Goes(w, s, a + b, e)
    decreases |a|
  {
    hide Enabled, Apply;
    if a == [] {
      assert a + b == b;
    } else {
      assert (a + b)[1..] == a[1..] + b;
      Then(w, Apply(w, s, a[0]), a[1..], m, b, e);
    }
  }

  /** A queue scans on to the first clear bit. */
  lemma {:induction false} ScanToTag(w: World, s: Shared, q: nat, k: nat) returns (run: seq<Action>)
    requires q in s.pc && s.pc[q].Finding? && s.pc[q].at <= k < s.pc[q].limit && k !in s.bits
    requires forall t | s.pc[q].at <= t < k :: t in s.bits
    ensures Goes(w, s, run, Go(s, q, Trying(s.pc[q].rq, s.pc[q].limit, k)))
    decreases s.pc[q].limit - s.pc[q].at
  {
    var p := s.pc[q];
    var m := Apply(w, s, Scan(q));
    One(w, s, Scan(q));
    run := [Scan(q)];
    if k >= WordEnd(w, p.at, p.limit) {
      var rest := ScanToTag(w, m, q, k);
      assert Go(m, q, Trying(p.rq, p.limit, k)) == Go(s, q, Trying(p.rq, p.limit, k));
      Then(w, s, run, m, rest, Go(s, q, Trying(p.rq, p.limit, k)));
      run := run + rest;
    }
  }

  /** A queue scans on over full words. */
  lemma {:induction false} ScanToWord(w: World, s: Shared, q: nat, stop: nat) returns (run: seq<Action>)
    requires q in s.pc && s.pc[q].Finding? && s.pc[q].at <= stop < s.pc[q].limit
    requires Mod(s.pc[q].at, w.wordBits) == 0 && Mod(stop, w.wordBits) == 0
    requires forall t | s.pc[q].at <= t < stop :: t in s.bits
    ensures Goes(w, s, run, Go(s, q, Finding(s.pc[q].rq, s.pc[q].limit, stop)))
    decreases s.pc[q].limit - s.pc[q].at
  {
    hide Mod;
    var p := s.pc[q];
    if p.at == stop {
      run := [];
      assert Go(s, q, p) == s;
    } else {
      if stop < p.at + w.wordBits { NoMultipleBetween(p.at, stop, w.wordBits); }
      var m := Apply(w, s, Scan(q));
      One(w, s, Scan(q));
      NextMultiple(p.at, w.wordBits);
      var rest := ScanToWord(w, m, q, stop);
      assert Go(m, q, Finding(p.rq, p.limit, stop)) == Go(s, q, Finding(p.rq, p.limit, stop));
      Then(w, s, [Scan(q)], m, rest, Go(s, q, Finding(p.rq, p.limit, stop)));
      run := [Scan(q)] + rest;
    }
  }

  function Holding(s: Shared, rq: nat, k: nat): Shared {
    s.(bits := s.bits[k := rq], index := s.index[k := rq], tagOf := s.tagOf[rq := k])
  }

  /** An idle queue starts a request, which gets the first clear bit. */
  lemma StartTakes(w: World, s: Shared, rq: nat, k: nat) returns (run: seq<Action>)
    requires var q := w.queueOf(rq); q in s.pc && s.pc[q].Idle? && rq !in s.tagOf
    requires k < Limit(s.maxDepth, w.sync(rq)) && k !in s.bits && forall t | 0 <= t < k :: t in s.bits
    ensures Goes(w, s, run, Holding(s, rq, k))
  {
    hide Goes;
    var q := w.queueOf(rq);
    var s1 := Apply(w, s, Start(rq));
    One(w, s, Start(rq));
    var scan := ScanToTag(w, s1, q, k);
    var s2 := Go(s1, q, Trying(rq, s1.pc[q].limit, k));
    Then(w, s, [Start(rq)], s1, scan, s2);
    run := [Start(rq)] + scan;
    var s3 := Apply(w, s2, TestAndSet(q));
    Next(w, s, run, s2, TestAndSet(q));
    var s4 := Apply(w, s3, Mark(q));
    Next(w, s, run + [TestAndSet(q)], s3, Mark(q));
    var s5 := Apply(w, s4, SetIndex(q));
    Next(w, s, run + [TestAndSet(q)] + [Mark(q)], s4, SetIndex(q));
    run := run + [TestAndSet(q)] + [Mark(q)] + [SetIndex(q)];
    assert s5.pc == s.pc;
    assert s5 == Holding(s, rq, k);
  }

  // ----- the run

  /** Requests 1, 2 and 3 are sync and of queues of their own; all others are async and of queue 0. */
  function ThreeSync(wordBits: Positive): World {
    World(r => if 1 <= r <= 3 then r else 0, r => 1 <= r <= 3, wordBits)
  }

  function FreshMap(depth: nat): Shared {
    Shared(map[], map[], depth, depth, map[0 := Idle, 1 := Idle, 2 := Idle, 3 := Idle], map[])
  }

  /** The first k tags are held by async requests and every queue is idle. */
  ghost predicate Loaded(s: Shared, depth: nat, k: nat) {
    && s.maxDepth == s.realMax == depth && s.pc == FreshMap(depth).pc
    && (forall t: nat :: t in s.bits <==> t < k)
    && (forall t | t in s.bits :: s.bits[t] == 4 + t)
    && (forall rq | rq in s.tagOf :: 4 <= rq < 4 + k)
  }

  lemma {:induction false} LoadAsync(w: World, depth: nat, k: nat) returns (run: seq<Action>, s: Shared)
    requires w == ThreeSync(w.wordBits) && depth >= 3 && k + 2 <= depth
    ensures Goes(w, FreshMap(depth), run, s) && Loaded(s, depth, k)
  {
    if k == 0 {
      run, s := [], FreshMap(depth);
    } else {
      var r, m := LoadAsync(w, depth, k - 1);
      var more := StartTakes(w, m, 4 + (k - 1), k - 1);
      s := Holding(m, 4 + (k - 1), k - 1);
      Then(w, FreshMap(depth), r, m, more, s);
      run := r + more;
    }
  }

  /** If the last two tags are in different words, a run leads to a sync request that gives up while
      fewer than two bits are set for sync requests. */
  lemma SyncCanMiss(wordBits: Positive, depth: nat) returns (w: World, run: seq<Action>, end: Shared)
    requires depth >= 3 && Mod(depth - 1, wordBits) == 0
    ensures w.wordBits == wordBits && Fresh(FreshMap(depth)) && Goes(w, FreshMap(depth), run, end)
    ensures 2 in end.pc && end.pc[2].Finding? && w.sync(end.pc[2].rq) && |SyncTags(w, end)| < 2
    ensures Enabled(w, end, Scan(2)) && Apply(w, end, Scan(2)).pc[2].Idle?
  {
    hide Goes, Mod, FirstZero;
    w := ThreeSync(wordBits);
    var load, s0 := LoadAsync(w, depth, depth - 2);
    // request 1 takes the first of the two tags
    var r1 := StartTakes(w, s0, 1, depth - 2);
    var s1 := Holding(s0, 1, depth - 2);
    Then(w, FreshMap(depth), load, s0, r1, s1);
    // request 3 finds the second clear, request 2 has read all words but the last
    var r2, s2 := TwoScans(w, s1, depth);
    Then(w, FreshMap(depth), load + r1, s1, r2, s2);
    // request 1 gives its tag back and request 3 takes the other
    var r3, s3 := Exchange(w, s2, depth);
    Then(w, FreshMap(depth), load + r1 + r2, s2, r3, s3);
    run, end := load + r1 + r2 + r3, s3;
    LastTagOnly(w, s0, s3, depth);
  }

  lemma LastTagOnly(w: World, s0: Shared, s: Shared, depth: nat)
    requires w == ThreeSync(w.wordBits) && depth >= 3 && Loaded(s0, depth, depth - 2)
    requires s.bits == (s0.bits[depth - 2 := 1] - {depth - 2})[depth - 1 := 3]
    requires 2 in s.pc && s.pc[2] == Finding(2, depth, depth - 1)
    ensures SyncTags(w, s) == {depth - 1} && Enabled(w, s, Scan(2)) && Apply(w, s, Scan(2)).pc[2].Idle?
  {
    assert WordEnd(w, depth - 1, depth) == depth;
  }

  lemma TwoScans(w: World, s: Shared, depth: nat) returns (run: seq<Action>, e: Shared)
    requires w == ThreeSync(w.wordBits) && depth >= 3 && Mod(depth - 1, w.wordBits) == 0
    requires s.maxDepth == depth && s.pc == FreshMap(depth).pc && 2 !in s.tagOf && 3 !in s.tagOf
    requires forall t: nat :: t in s.bits <==> t < depth - 1
    ensures Goes(w, s, run, e) && e == s.(pc := s.pc[3 := Trying(3, depth, depth - 1)][2 := Finding(2, depth, depth - 1)])
  {
    hide Goes, Mod;
    var a := Apply(w, s, Start(3));
    One(w, s, Start(3));
    var ra := ScanToTag(w, a, 3, depth - 1);
    var b := Go(a, 3, Trying(3, depth, depth - 1));
    Then(w, s, [Start(3)], a, ra, b);
    var c := Apply(w, b, Start(2));
    Next(w, s, [Start(3)] + ra, b, Start(2));
    ZeroIsMultiple(w.wordBits);
    var rc := ScanToWord(w, c, 2, depth - 1);
    e := Go(c, 2, Finding(2, depth, depth - 1));
    run := [Start(3)] + ra + [Start(2)];
    Then(w, s, run, c, rc, e);
    run := run + rc;
    assert e.pc == s.pc[3 := Trying(3, depth, depth - 1)][2 := Finding(2, depth, depth - 1)];
  }

  lemma Exchange(w: World, s: Shared, depth: nat) returns (run: seq<Action>, e: Shared)
    requires w == ThreeSync(w.wordBits) && depth >= 3
    requires {1, 2, 3} <= s.pc.Keys && s.pc[1].Idle? && s.pc[3] == Trying(3, depth, depth - 1)
    requires 1 in s.tagOf && s.tagOf[1] == depth - 2 && depth - 1 !in s.bits
    ensures Goes(w, s, run, e) && e.bits == (s.bits - {depth - 2})[depth - 1 := 3] && 2 in e.pc && e.pc[2] == s.pc[2]
  {
    hide Goes;
    run := GiveBack(w, s, 1);
    var m := Released(s, 1);
    e := Apply(w, m, TestAndSet(3));
    Next(w, s, run, m, TestAndSet(3));
    run := run + [TestAndSet(3)];
  }

  function Released(s: Shared, rq: nat): Shared
    requires rq in s.tagOf
  {
    s.(bits := s.bits - {s.tagOf[rq]}, index := s.index - {s.tagOf[rq]}, tagOf := s.tagOf - {rq})
  }

  /** An idle queue ends a request's tag. */
  lemma GiveBack(w: World, s: Shared, rq: nat) returns (run: seq<Action>)
    requires var q := w.queueOf(rq); q in s.pc && s.pc[q].Idle? && rq in s.tagOf
    ensures Goes(w, s, run, Released(s, rq))
  {
    hide Goes;
    var q := w.queueOf(rq);
    var a := Apply(w, s, End(rq));
    One(w, s, End(rq));
    var b := Apply(w, a, ClearIndex(q));
    Next(w, s, [End(rq)], a, ClearIndex(q));
    var c := Apply(w, b, Unlock(q));
    Next(w, s, [End(rq)] + [ClearIndex(q)], b, Unlock(q));
    run := [End(rq)] + [ClearIndex(q)] + [Unlock(q)];
    assert c.pc == s.pc;
    assert c == Released(s, rq);
  }
}
