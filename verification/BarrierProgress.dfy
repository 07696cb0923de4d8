/** Ordering by draining: where the bios of merged requests end up, and why a sequence in progress
    always has a request to hand out. */
module BarrierProgress {
  import opened Options
  import opened Lists
  import opened BarrierQueue
  import opened BarrierProtocol
  import opened BarrierOrder

  // ----- merged requests

  /** The request that has the bios of r after these merges. */
  function Home(ms: seq<Merge>, r: Req): Req {
    if ms == [] then r else Home(ms[1..], if ms[0].from == r then ms[0].into else r)
  }

  lemma {:induction false} HomeAppend(ms: seq<Merge>, m: Merge, r: Req)
    ensures Home(ms + [m], r) == if Home(ms, r) == m.from then m.into else Home(ms, r)
  {
    if ms == [] {
      assert ms + [m] == [m] && [m][1..] == [];
    } else {
      assert (ms + [m])[1..] == ms[1..] + [m];
      HomeAppend(ms[1..], m, if ms[0].from == r then ms[0].into else r);
    }
  }

  lemma {:induction false} HomeIsSelf(ms: seq<Merge>, r: Req)
    requires forall i | 0 <= i < |ms| :: ms[i].from != r
    ensures Home(ms, r) == r
  {
    if ms != [] { HomeIsSelf(ms[1..], r); }
  }

  /** The bios of a request are in one of its epoch that was not merged itself. */
  predicate HomeOk(s: State, r: Req) {
    var h := Home(s.merges, r);
    h in s.seen && h !in s.merged && h.epoch == r.epoch && h.fs == r.fs && (h == r || !h.barrier)
  }

  ghost predicate Homed(s: State) {
    && (forall i | 0 <= i < |s.merges| :: s.merges[i].from in s.seen)
    && (forall r | r in s.elevator || r in s.merged :: r in s.seen)
    && (forall r | r in s.elevator :: r !in s.merged)
    && (forall r | r in s.seen :: HomeOk(s, r))
  }

  lemma HomedSame(s: State, t: State)
    requires Homed(s) && t.seen == s.seen && t.merged == s.merged && t.merges == s.merges && t.elevator <= s.elevator
    ensures Homed(t)
  {
    hide Home;
  }

  lemma HomedNew(s: State, t: State, r: Req)
    requires Homed(s) && r !in s.seen && t.seen == s.seen + {r} && t.merged == s.merged && t.merges == s.merges
    requires t.elevator <= s.elevator + {r}
    ensures Homed(t)
  {
    HomeIsSelf(s.merges, r);
    hide Home;
  }

  lemma HomedMerged(s: State, r: Req, into: Req)
    requires Places(s) && Epochs(s) && Homed(s) && r in s.elevator && into in s.elevator && r != into
    ensures Homed(Absorbed(s, r, into))
  {
    hide Home, HomeOk;
    var t := Absorbed(s, r, into);
    forall x | x in t.seen
      ensures HomeOk(t, x)
    {
      HomeStep(s, r, into, x);
    }
  }

  lemma HomeStep(s: State, r: Req, into: Req, x: Req)
    requires HomeOk(s, x) && r != into && into in s.seen && into !in s.merged
    requires into.epoch == r.epoch && into.fs == r.fs && !into.barrier
    ensures HomeOk(Absorbed(s, r, into), x)
  {
    hide Home;
    HomeAppend(s.merges, Merge(r, into), x);
  }

  // ----- something is always on its way

  /** Requests that are not fs requests are never passed by sorted ones. */
  ghost predicate OthersStop(q: Queue) { forall rq | rq in q.list && rq.Pool? && !rq.r.fs :: rq in q.soft }

  /** While the queue drains, the driver has a request or the head of the list may go to it. */
  ghost predicate Draining(q: Queue, driver: set<Rq>) {
    q.ordseq != {} && Drain !in q.ordseq ==>
      driver != {} || (q.list != [] && q.orig.Some? && ReqSeq(q, q.list[0]) == Drain)
  }

  ghost predicate Moving(s: State) { OthersStop(s.q) && Draining(s.q, s.driver) }

  lemma InsertBackMoving(s: State, r: Req)
    requires Moving(s)
    ensures Moving(AddBack(s, r))
  {}

  lemma InsertFrontMoving(s: State, r: Req)
    requires Base(s) && Moving(s) && !r.fs
    ensures Moving(AddFront(s, r))
  {}

  /** A sorted request never gets ahead of the head that the drain waits for. */
  lemma DispatchMoving(s: State, r: Req, p: nat)
    requires Base(s) && Waits(s) && Order(s) && Moving(s) && Enabled(s, Dispatch(r, p))
    ensures Moving(MoveToList(s, r, p))
  {
    var t := MoveToList(s, r, p);
    assert r.fs;
    InsertAtMembers(s.q.list, p, Pool(r));
    if s.q.ordseq != {} && Drain !in s.q.ordseq && s.driver == {} {
      HeadStops(s);
      assert s.q.list[0] in s.q.list;
      InsertAtIs(s.q.list, p, Pool(r));
    }
    hide InsertAt, Base, Waits, Order;
  }

  lemma HeadStops(s: State)
    requires Base(s) && Waits(s) && Order(s) && OthersStop(s.q) && s.q.ordseq != {} && s.q.list != []
    requires ReqSeq(s.q, s.q.list[0]) == Drain
    ensures Stops(s.q, s.q.list[0])
  {
    var h := s.q.list[0];
    assert h in s.q.list;
    if FsPool(h) { SameColour(s, 0); }
  }

  lemma StartMoving(s: State, rq: Rq)
    requires Base(s) && Moving(s) && rq in s.q.list
    ensures Moving(StartOne(s, rq))
  {
    WithoutMembers(s.q.list, rq);
    hide Without;
  }

  /** What is put back while the queue drains goes to the head. */
  lemma ReinsertMoving(s: State, rq: Rq)
    requires Base(s) && Waits(s) && Order(s) && Moving(s) && rq in s.driver
    ensures Known(s) && Moving(PutBack(s, rq))
  {
    assert Known(s);
    var p := PutBackIs(s, rq);
    InsertAtMembers(s.q.list, p, rq);
    var t := Returned(s, rq, p);
    if s.q.ordseq != {} && Drain !in s.q.ordseq {
      ReinsertAtHead(s, rq);
    }
    hide InsertAt, PutBack, Base, Waits, Order;
  }

  lemma ReinsertAtHead(s: State, rq: Rq)
    requires Base(s) && Waits(s) && Order(s) && rq in s.driver && s.q.ordseq != {} && Drain !in s.q.ordseq
    ensures PutBack(s, rq).q.list == [rq] + s.q.list && s.q.orig.Some? && ReqSeq(PutBack(s, rq).q, rq) == Drain
  {
    StillDraining(s, rq);
    hide Base, Waits, Order, PutBack, Requeue, InsertAt;
    var p := PutBackIs(s, rq);
    assert p == 0;
    InsertAtFront(s.q.list, rq);
  }

  lemma InsertAtFront<T>(s: seq<T>, x: T)
    ensures InsertAt(s, 0, x) == [x] + s
  {
  }

  /** What the driver holds while the queue drains was handed out before the sequence. */
  lemma StillDraining(s: State, rq: Rq)
    requires Base(s) && Waits(s) && Order(s) && rq in s.driver && s.q.ordseq != {} && Drain !in s.q.ordseq
    ensures Known(s) && s.q.orig.Some? && ReqSeq(s.q, rq) == Drain
  {
    assert Out(s, rq);
    assert rq.Pool?;
    assert rq.r.fs ==> rq.r.color == s.q.orig.value.color;
  }

  /** Whoever completes last finds the drain over, or the head may go. */
  lemma DrainCheckMoving(s: State)
    requires Stages(s) && Flight(s) && OthersStop(s.q)
    ensures var (q', e) := DrainCheck(s.q); OthersStop(q') && Draining(q', s.driver)
  {
    if s.driver == {} {
      assert FsOf({}) == {};
    }
  }

  lemma PutMergedMoving(s: State, r: Req, into: Req)
    requires Base(s) && Moving(s) && Enabled(s, PutMerged(r, into))
    ensures Known(s) && Moving(PutAway(s, r, into))
  {
    assert !Accounted(s.q, Pool(r));
    DrainCheckMoving(s);
    hide DrainCheck;
  }

  lemma CompletePoolMoving(s: State, r: Req, error: int)
    requires Base(s) && Moving(s) && Pool(r) in s.driver
    ensures Known(s) && Moving(CompleteOne(s, Pool(r), error))
  {
    ReleasedBase(s, r);
    DrainCheckMoving(Released(s, r));
    hide DrainCheck;
  }

  lemma CompleteProxyMoving(s: State, p: Rq, error: int)
    requires Base(s) && Order(s) && Moving(s) && !p.Pool? && p in s.driver
    ensures Known(s) && Moving(CompleteOne(s, p, error))
  {
    DrainIsOver(s, p);
    CompleteProxyIs(s, p, error);
    hide Reported, CompleteOne, Base, Order;
  }

  /** The driver gets an embedded request only when the drain is over. */
  lemma DrainIsOver(s: State, p: Rq)
    requires Base(s) && Order(s) && !p.Pool? && p in s.driver
    ensures Known(s) && Drain in s.q.ordseq
  {
    assert Out(s, p) && Rank(Drain) < Rank(StageOf(p));
  }

  lemma PeekHeadMoving(s: State)
    requires Base(s) && Waits(s) && Moving(s) && s.q.list != [] && (s.q.ordseq == {} ==> !PoolBarrier(s.q.list[0]))
    ensures Known(s) && Moving(PeekNext(s))
  {
    PeekHead(s);
    hide DoOrdered, Waits;
  }

  /** A sequence that starts with requests in flight has them at the driver. */
  lemma PeekBarrierMoving(s: State)
    requires Base(s) && Moving(s) && s.q.ordseq == {} && s.q.list != [] && PoolBarrier(s.q.list[0])
    ensures Known(s) && Moving(PeekNext(s))
  {
    assert Known(s);
    PeekBarrierIs(s);
    StackedMoving(s);
    hide PeekNext, Base, Stacked, SkipSet;
    BegunMoving(Stacked(s));
  }

  lemma StackedMoving(s: State)
    requires Base(s) && OthersStop(s.q) && s.q.ordseq == {} && s.q.list != [] && PoolBarrier(s.q.list[0])
    ensures OthersStop(Stacked(s).q) && Drain !in Stacked(s).q.ordseq && Stacked(s).q.ordseq != {}
    ensures Drain !in SkipSet(Stacked(s).q) ==> Stacked(s).driver != {}
  {
    StackedMembers(s);
    StackedFlight(s);
    hide Base, Effective, NoDup, Proxies;
  }

  lemma StackedFlight(s: State)
    requires Base(s) && s.q.list != [] && s.q.list[0].Pool?
    ensures Stacked(s).driver == s.driver && (s.driver == {} && !Accounted(s.q, s.q.list[0]) ==> Stacked(s).q.inFlight == 0)
  {
    if s.driver == {} { assert FsOf({}) == {}; }
  }

  /** Ending the skipped stages. */
  lemma BegunMoving(t: State)
    requires OthersStop(t.q) && (Drain !in SkipSet(t.q) ==> t.driver != {})
    ensures var (q', e) := CompleteSeq(t.q, SkipSet(t.q), 0);
            forall rq: Option<Rq> :: Moving(Marked(Close(t.(q := q'), e), rq))
  {
    hide SkipSet;
  }

  // ----- what the head of the list is

  lemma NotLate(s: State)
    requires Base(s) && Waits(s) && Order(s) && s.q.ordseq != {} && s.q.list != []
    ensures s.q.orig.Some? && (IsStaged(s.q.list[0]) ==> Rank(ReqSeq(s.q, s.q.list[0])) >= Rank(CurSeq(s.q.ordseq)))
  {
    var h := s.q.list[0];
    assert h in s.q.list && Held(s, h);
    if FsPool(h) && ReqSeq(s.q, h) == Drain {
      SameColour(s, 0);
      assert Drain !in s.q.ordseq;
    }
  }

  /** Once the queue has drained, the current stage's request is the first of those that wait. */
  lemma HeadIsCurrent(s: State)
    requires Base(s) && Waits(s) && Order(s) && s.q.ordseq != {} && Drain in s.q.ordseq && s.driver == {}
    ensures s.q.list != [] && s.q.orig.Some?
    ensures IsStaged(s.q.list[0]) ==> ReqSeq(s.q, s.q.list[0]) == CurSeq(s.q.ordseq)
  {
    var cur := CurSeq(s.q.ordseq);
    var p := if cur == Pre then PreFlush else if cur == Bar then BarRq else PostFlush;
    assert StageOf(p) == cur && Held(s, p);
    var j :| 0 <= j < |s.q.list| && s.q.list[j] == p;
    var h := s.q.list[0];
    assert h in s.q.list && Held(s, h);
    if IsStaged(h) {
      assert Ranked(h) && Key(h, |s.closed|) <= Key(p, |s.closed|);
    }
  }

  lemma SomethingToDo(s: State)
    requires Base(s) && Waits(s) && Order(s) && Moving(s) && s.q.ordseq != {} && s.driver == {}
    ensures s.q.list != [] && s.q.orig.Some?
    ensures var n := DoOrdered(s.q); n.returned && n.rq == Some(s.q.list[0])
  {
    assert Mode(s);
    if Drain in s.q.ordseq { HeadIsCurrent(s); }
    hide Waits, Key, Sorted, NoDup;
  }
}
