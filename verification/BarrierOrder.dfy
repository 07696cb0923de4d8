/** Ordering by draining: which requests can be out at the same time. */
module BarrierOrder {
  import opened Options
  import opened Lists
  import opened BarrierQueue
  import opened BarrierProtocol

  predicate FsPool(rq: Rq) { rq.Pool? && rq.r.fs }

  /** Where a request belongs in the list, when `e` barriers have ended: the requests of an
      epoch, then the embedded requests of its barrier or the barrier itself. */
  function Key(rq: Rq, e: nat): nat {
    match rq
    case Pool(r) => 8 * r.epoch + if r.barrier then 7 else 0
    case PreFlush => 8 * e + 4
    case BarRq => 8 * e + 5
    case PostFlush => 8 * e + 6
  }

  /** Requests that are not fs requests may stand anywhere. */
  predicate Ranked(rq: Rq) { rq.Pool? ==> rq.r.fs }

  ghost predicate Sorted(list: seq<Rq>, e: nat) {
    forall i, j | 0 <= i < j < |list| && Ranked(list[i]) && Ranked(list[j]) :: Key(list[i], e) <= Key(list[j], e)
  }

  /** Handed to the driver: peeked, or already dequeued. */
  predicate Out(s: State, rq: Rq) { rq in s.driver || (rq in s.q.list && rq in s.q.started) }

  predicate Held(s: State, rq: Rq) { rq in s.driver || rq in s.q.list }

  // ----- the invariant, in parts

  ghost predicate Mode(s: State) {
    && s.q.nextOrdered.byDrain
    && (s.q.ordseq != {} ==> s.q.ordered.byDrain && !s.q.ordered.byTag)
  }

  ghost predicate Epochs(s: State) {
    && (forall rq | Held(s, rq) && FsPool(rq) ::
          |s.closed| <= rq.r.epoch <= |s.barriers| && rq.r.color == Odd(rq.r.epoch))
    && (forall r | r in s.elevator :: r.epoch == |s.barriers| && r.color == Odd(r.epoch))
  }

  /** Only requests of the oldest epoch are out, and each embedded request only in its turn. */
  ghost predicate Turns(s: State) {
    && (forall rq | Out(s, rq) && FsPool(rq) :: rq.r.epoch == |s.closed|)
    && (forall p: Rq, st | Out(s, p) && !p.Pool? && Rank(st) < Rank(StageOf(p)) :: st in s.q.ordseq)
  }

  /** Once drained, nothing of the barrier's epoch is left; before, what is left was requeued. */
  ghost predicate Drained(s: State) {
    s.q.ordseq != {} ==>
      && (forall rq | rq in s.q.list && FsPool(rq) && rq.r.epoch == |s.closed| :: Stops(s.q, rq))
      && (Drain in s.q.ordseq ==> forall rq | Held(s, rq) && FsPool(rq) :: rq.r.epoch != |s.closed|)
  }

  /** No request is lost. */
  ghost predicate Covered(s: State) {
    forall r | r in s.seen ::
      r in s.done || r in s.merged || r in s.elevator || Held(s, Pool(r)) || (s.q.ordseq != {} && s.q.orig == Some(r))
  }

  ghost predicate Order(s: State) {
    Mode(s) && Epochs(s) && Turns(s) && Drained(s) && Covered(s) && Sorted(s.q.list, |s.closed|)
  }

  // ----- lists

  lemma SortedInsert(list: seq<Rq>, e: nat, p: nat, x: Rq)
    requires Sorted(list, e) && p <= |list|
    requires Ranked(x) ==> forall j | 0 <= j < p && Ranked(list[j]) :: Key(list[j], e) <= Key(x, e)
    requires Ranked(x) ==> forall j | p <= j < |list| && Ranked(list[j]) :: Key(x, e) <= Key(list[j], e)
    ensures Sorted(InsertAt(list, p, x), e)
  {
    hide InsertAt, Key, Ranked;
    InsertAtIs(list, p, x);
  }

  lemma SortedRemove(list: seq<Rq>, e: nat, x: Rq)
    requires Sorted(list, e) && x in list
    ensures Sorted(Without(list, x), e)
  {
    hide Without, IndexOf, Key, Ranked;
    WithoutIs(list, x);
  }

  lemma SortedConcat(a: seq<Rq>, b: seq<Rq>, e: nat)
    requires Sorted(a, e) && Sorted(b, e)
    requires forall x, y | x in a && y in b && Ranked(x) && Ranked(y) :: Key(x, e) <= Key(y, e)
    ensures Sorted(a + b, e)
  {
    assert forall i | 0 <= i < |a| :: a[i] in a;
    assert forall i | 0 <= i < |b| :: b[i] in b;
    hide Key, Ranked;
  }

  // ----- the order of the list speaks about epochs

  /** A request of a later epoch has the barriers of all epochs between before it. */
  lemma BarrierBefore(s: State, i: nat, e: nat)
    requires Waits(s) && Sorted(s.q.list, |s.closed|)
    requires i < |s.q.list| && FsPool(s.q.list[i])
    requires Waiting(s) <= e < |s.barriers| && e < s.q.list[i].r.epoch
    ensures exists k | 0 <= k < i :: s.q.list[k] == Pool(s.barriers[e])
  {
    var k :| 0 <= k < |s.q.list| && s.q.list[k] == Pool(s.barriers[e]);
    assert Key(s.q.list[k], |s.closed|) < Key(s.q.list[i], |s.closed|);
  }

  /** A request of an earlier epoch has its barrier behind it. */
  lemma BarrierBehind(s: State, i: nat)
    requires Waits(s) && Sorted(s.q.list, |s.closed|)
    requires i < |s.q.list| && FsPool(s.q.list[i]) && !s.q.list[i].r.barrier
    requires Waiting(s) <= s.q.list[i].r.epoch < |s.barriers|
    ensures exists k | i < k < |s.q.list| :: s.q.list[k] == Pool(s.barriers[s.q.list[i].r.epoch])
  {
    var e := s.q.list[i].r.epoch;
    var k :| 0 <= k < |s.q.list| && s.q.list[k] == Pool(s.barriers[e]);
    assert Key(s.q.list[k], |s.closed|) > Key(s.q.list[i], |s.closed|);
  }

  // ----- insertion and dispatch

  lemma InsertSortOrder(s: State, r: Req)
    requires Base(s) && Waits(s) && Order(s) && Enabled(s, InsertSort(r))
    ensures Order(AddSorted(s, r))
  {
    hide Base, Odd, Key;
  }

  lemma InsertBackSorted(s: State, r: Req)
    requires Base(s) && Waits(s) && Order(s) && Enabled(s, InsertBack(r))
    ensures Sorted(AddBack(s, r).q.list, |s.closed|)
  {
    var t := AddBack(s, r);
    assert t.q.list == InsertAt(s.q.list, |s.q.list|, Pool(r));
    forall j | 0 <= j < |s.q.list| && Ranked(s.q.list[j])
      ensures Key(s.q.list[j], |s.closed|) <= 8 * |s.barriers|
    {
      assert Held(s, s.q.list[j]);
    }
    SortedInsert(s.q.list, |s.closed|, |s.q.list|, Pool(r));
  }

  /** A request added to the list that was not out. */
  lemma OrderAdded(s: State, t: State, r: Req)
    requires Waits(s) && Order(s) && t.q.ordseq == s.q.ordseq && t.q.orig == s.q.orig && t.q.ordered == s.q.ordered
    requires t.q.nextOrdered == s.q.nextOrdered && t.q.soft >= s.q.soft && t.q.started == s.q.started
    requires t.driver == s.driver && t.closed == s.closed && t.done == s.done && t.merged == s.merged
    requires forall rq :: rq in t.q.list <==> rq in s.q.list || rq == Pool(r)
    requires Pool(r) !in s.q.started && Pool(r) !in s.driver
    requires t.seen <= s.seen + {r} && t.elevator == s.elevator - {r}
    requires |s.barriers| <= |t.barriers| && (t.elevator != {} ==> |t.barriers| == |s.barriers|)
    requires r.fs ==> r.epoch == |s.barriers| && r.color == Odd(r.epoch)
    requires Sorted(t.q.list, |s.closed|)
    ensures Order(t)
  {
    hide Key, Sorted, Odd;
  }

  lemma InsertBackOrder(s: State, r: Req)
    requires Base(s) && Waits(s) && Order(s) && Enabled(s, InsertBack(r))
    ensures Order(AddBack(s, r))
  {
    var t := AddBack(s, r);
    InsertBackSorted(s, r);
    assert t.q.list == InsertAt(s.q.list, |s.q.list|, Pool(r));
    InsertAtMembers(s.q.list, |s.q.list|, Pool(r));
    assert Places(s) && s.q.ordcolor == Odd(|s.barriers|);
    hide Base, Key, Sorted, InsertAt, Odd, NoDup, Order, Waits;
    OrderAdded(s, t, r);
  }

  lemma InsertFrontOrder(s: State, r: Req)
    requires Base(s) && Waits(s) && Order(s) && Enabled(s, InsertFront(r))
    ensures Order(AddFront(s, r))
  {
    var t := AddFront(s, r);
    assert t.q.list == InsertAt(s.q.list, 0, Pool(r));
    InsertAtMembers(s.q.list, 0, Pool(r));
    SortedInsert(s.q.list, |s.closed|, 0, Pool(r));
    assert Places(s);
    hide Base, Key, Sorted, InsertAt, Odd, NoDup, Order, Waits;
    OrderAdded(s, t, r);
  }

  /** The elevator cannot put a request ahead of one of an earlier epoch. */
  lemma DispatchSorted(s: State, r: Req, p: nat)
    requires Base(s) && Waits(s) && Order(s) && Enabled(s, Dispatch(r, p))
    ensures Sorted(InsertAt(s.q.list, p, Pool(r)), |s.closed|)
  {
    var e := |s.closed|;
    forall j | 0 <= j < |s.q.list| && Ranked(s.q.list[j])
      ensures j < p ==> Key(s.q.list[j], e) <= 8 * |s.barriers|
      ensures p <= j ==> 8 * |s.barriers| <= Key(s.q.list[j], e)
    {
      assert Held(s, s.q.list[j]);
      if p <= j {
        assert !Stops(s.q, s.q.list[j]);
        if Waiting(s) <= s.q.list[j].r.epoch < |s.barriers| {
          BarrierBehind(s, j);
        }
      }
    }
    assert Key(Pool(r), e) == 8 * |s.barriers|;
    SortedInsert(s.q.list, e, p, Pool(r));
  }

  lemma DispatchOrder(s: State, r: Req, p: nat)
    requires Base(s) && Waits(s) && Order(s) && Enabled(s, Dispatch(r, p))
    ensures Order(MoveToList(s, r, p))
  {
    DispatchSorted(s, r, p);
    InsertAtMembers(s.q.list, p, Pool(r));
    assert Places(s) && Epochs(s);
    hide Base, Key, Sorted, InsertAt, Odd, NoDup, Order, Waits;
    OrderAdded(s, MoveToList(s, r, p), r);
  }

  /** Moving requests between the list and the driver. */
  lemma OrderMoved(s: State, t: State)
    requires Order(s)
    requires t == s.(q := t.q, driver := t.driver) && t.q == s.q.(list := t.q.list, inFlight := t.q.inFlight,
               started := t.q.started, soft := t.q.soft)
    requires forall rq :: Held(t, rq) <==> Held(s, rq)
    requires forall rq | Out(t, rq) && Ranked(rq) :: Out(s, rq)
    requires s.q.ordseq != {} ==>
               forall rq | rq in t.q.list && FsPool(rq) && rq.r.epoch == |s.closed| :: Stops(t.q, rq)
    requires Sorted(t.q.list, |s.closed|)
    ensures Order(t)
  {
    hide Key, Sorted, Odd;
  }

  lemma StartOrder(s: State, rq: Rq)
    requires Base(s) && Waits(s) && Order(s) && Enabled(s, Start(rq))
    ensures Order(StartOne(s, rq))
  {
    StartedPlaces(s, rq);
    hide Base, Key, Sorted, Without, Odd, NoDup, Waits, Epochs, Turns, Covered, Mode, Held, Out;
    assert Drained(s);
    OrderMoved(s, StartOne(s, rq));
  }

  lemma StartedPlaces(s: State, rq: Rq)
    requires Base(s) && Order(s) && Enabled(s, Start(rq))
    ensures var t := StartOne(s, rq);
            && Sorted(t.q.list, |s.closed|) && (forall x :: Held(t, x) <==> Held(s, x)) && (forall x | Out(t, x) :: Out(s, x))
            && (s.q.ordseq != {} ==> forall x | x in t.q.list && FsPool(x) && x.r.epoch == |s.closed| :: Stops(t.q, x))
  {
    WithoutMembers(s.q.list, rq);
    SortedRemove(s.q.list, |s.closed|, rq);
    assert Drained(s);
    hide Key, Sorted, Without, Odd, NoDup, Waits, Epochs, Turns, Covered, Mode;
  }

  // ----- requeueing

  /** While a sequence runs, a request of the barrier's colour that could be skipped is of its epoch. */
  lemma SameColour(s: State, i: nat)
    requires Stages(s) && Waits(s) && Order(s) && s.q.ordseq != {}
    requires i < |s.q.list| && FsPool(s.q.list[i])
    requires forall k | 0 <= k <= i :: ReqSeq(s.q, s.q.list[k]) != Done
    ensures s.q.list[i].r.epoch == |s.closed|
  {
    var r := s.q.list[i].r;
    assert Held(s, s.q.list[i]);
    assert s.q.orig.value.color == Odd(|s.closed|);
    if r.epoch > |s.closed| + 1 {
      assert Waiting(s) == |s.closed| + 1;
      BarrierBefore(s, i, |s.closed| + 1);
    }
  }

  /** An embedded request goes back behind what it has to wait for and before what waits for it. */
  lemma ReinsertProxySorted(s: State, x: Rq, p: nat)
    requires Stages(s) && Waits(s) && Order(s) && s.q.ordseq != {} && !x.Pool? && p <= |s.q.list|
    requires forall j | 0 <= j < p :: Rank(ReqSeq(s.q, x)) > Rank(ReqSeq(s.q, s.q.list[j]))
    requires p < |s.q.list| ==> Rank(ReqSeq(s.q, x)) <= Rank(ReqSeq(s.q, s.q.list[p]))
    ensures Sorted(InsertAt(s.q.list, p, x), |s.closed|)
  {
    var e := |s.closed|;
    forall j | 0 <= j < p && Ranked(s.q.list[j])
      ensures Key(s.q.list[j], e) <= Key(x, e)
    {
      SkippedIsBefore(s, x, j);
    }
    if p < |s.q.list| {
      assert Held(s, s.q.list[p]);
      assert Ranked(s.q.list[p]) && Key(x, e) <= Key(s.q.list[p], e);
    }
    assert Sorted(s.q.list, e);
    hide Order, Waits, Stages, Key, ReqSeq, InsertAt;
    SortedInsert(s.q.list, e, p, x);
  }

  lemma SkippedIsBefore(s: State, x: Rq, j: nat)
    requires Stages(s) && Waits(s) && Order(s) && s.q.ordseq != {} && !x.Pool?
    requires j < |s.q.list| && Ranked(s.q.list[j])
    requires forall k | 0 <= k <= j :: Rank(ReqSeq(s.q, x)) > Rank(ReqSeq(s.q, s.q.list[k]))
    ensures Key(s.q.list[j], |s.closed|) <= Key(x, |s.closed|)
  {
    if s.q.list[j].Pool? {
      SameColour(s, j);
      assert s.q.list[j] in s.q.list && !PoolBarrier(s.q.list[j]);
    }
  }

  lemma ReinsertPoolSorted(s: State, x: Rq, p: nat)
    requires Stages(s) && Order(s) && x.Pool? && p <= |s.q.list| && x in s.driver && !PoolBarrier(x)
    requires s.q.ordseq == {} ==> p == 0
    requires s.q.ordseq != {} ==> forall j | 0 <= j < p :: Rank(ReqSeq(s.q, x)) > Rank(ReqSeq(s.q, s.q.list[j]))
    requires s.q.ordseq != {} && x.r.fs ==> x.r.color == s.q.orig.value.color
    ensures Sorted(InsertAt(s.q.list, p, x), |s.closed|)
  {
    var e := |s.closed|;
    if x.r.fs {
      assert s.q.ordseq != {} && s.q.list != [] ==> Rank(ReqSeq(s.q, s.q.list[0])) >= Rank(ReqSeq(s.q, x));
      assert p == 0;
      assert Out(s, x);
      forall j | 0 <= j < |s.q.list| && Ranked(s.q.list[j])
        ensures Key(x, e) <= Key(s.q.list[j], e)
      {
        assert Held(s, s.q.list[j]);
      }
    }
    SortedInsert(s.q.list, e, p, x);
  }

  lemma ReinsertSorted(s: State, rq: Rq, p: nat)
    requires Base(s) && Waits(s) && Order(s) && rq in s.driver && p <= |s.q.list|
    requires s.q.ordseq == {} ==> p == 0
    requires s.q.ordseq != {} ==>
              && (forall j | 0 <= j < p :: Rank(ReqSeq(s.q, rq)) > Rank(ReqSeq(s.q, s.q.list[j])))
              && (p < |s.q.list| ==> Rank(ReqSeq(s.q, rq)) <= Rank(ReqSeq(s.q, s.q.list[p])))
    ensures Sorted(InsertAt(s.q.list, p, rq), |s.closed|)
  {
    hide Key, Sorted, InsertAt, NoDup, CurSeq, Rank;
    assert Out(s, rq) && Held(s, rq);
    if rq.Pool? {
      assert s.q.ordseq != {} ==> s.q.orig.value.color == Odd(|s.closed|);
      ReinsertPoolSorted(s, rq, p);
    } else {
      ReinsertProxySorted(s, rq, p);
    }
  }

  lemma ReinsertOrder(s: State, rq: Rq)
    requires Base(s) && Waits(s) && Order(s) && rq in s.driver
    ensures Order(PutBack(s, rq))
  {
    var p := PutBackIs(s, rq);
    ReinsertSorted(s, rq, p);
    assert Drained(s) && rq !in s.q.list;
    hide PutBack, Sorted, Waits, Base, ReqSeq, Order;
    ReturnedOrder(s, rq, p);
  }

  lemma ReturnedOrder(s: State, rq: Rq, p: nat)
    requires Order(s) && rq in s.driver && p <= |s.q.list| && rq !in s.q.list
    requires Sorted(InsertAt(s.q.list, p, rq), |s.closed|)
    ensures Order(Returned(s, rq, p))
  {
    InsertAtMembers(s.q.list, p, rq);
    var t := Returned(s, rq, p);
    assert forall x :: Held(t, x) <==> Held(s, x);
    assert forall x | Out(t, x) :: Out(s, x);
    assert s.q.ordseq != {} ==> Drained(s);
    hide InsertAt, Sorted, Order;
    OrderMoved(s, t);
  }

  // ----- ending stages

  ghost predicate EpochGone(s: State) { forall rq | Held(s, rq) && FsPool(rq) :: rq.r.epoch != |s.closed| }

  /** Setting stage bits; the drain bit only when the epoch is gone. */
  lemma CompleteSeqOrder(s: State, stages: set<Stage>, error: int)
    requires Waits(s) && Order(s) && s.q.ordseq != {} && s.q.orig.Some? && Started in s.q.ordseq
    requires Drain in s.q.ordseq + stages ==> EpochGone(s)
    requires forall p: Rq | !p.Pool? :: Held(s, p) <==> StageOf(p) !in s.q.ordseq + stages
    ensures var (q', e) := CompleteSeq(s.q, stages, error);
            Order(Close(s.(q := q'), e))
  {
    var (q', e) := CompleteSeq(s.q, stages, error);
    var t := Close(s.(q := q'), e);
    assert t.q.list == s.q.list && t.driver == s.driver && t.q.started == s.q.started && t.q.soft == s.q.soft;
    if e.Some? {
      var all := s.q.ordseq + stages;
      assert Drain in all && Pre in all && Bar in all && Post in all;
      assert forall p: Rq | Held(s, p) :: p.Pool?;
      SortedNoProxies(s);
      hide CompleteSeq, CurSeq, Key, Odd, Sorted;
      ClosedOrder(s, t);
    } else {
      hide CompleteSeq, CurSeq, Key, Odd, Sorted;
    }
  }

  lemma SortedNoProxies(s: State)
    requires Sorted(s.q.list, |s.closed|) && forall p: Rq | Held(s, p) :: p.Pool?
    ensures Sorted(s.q.list, |s.closed| + 1)
  {
    assert forall i | 0 <= i < |s.q.list| :: Held(s, s.q.list[i]);
  }

  lemma ClosedOrder(s: State, t: State)
    requires Waits(s) && Order(s) && s.q.ordseq != {} && s.q.orig.Some? && EpochGone(s)
    requires forall p: Rq | Held(s, p) :: p.Pool?
    requires Sorted(s.q.list, |s.closed| + 1) && |t.closed| == |s.closed| + 1
    requires t.q.list == s.q.list && t.driver == s.driver && t.q.started == s.q.started
    requires t.q.ordseq == {} && t.q.nextOrdered == s.q.nextOrdered
    requires t.seen == s.seen && t.done == s.done + {s.q.orig.value} && t.merged == s.merged
    requires t.elevator == s.elevator && t.barriers == s.barriers
    ensures Order(t)
  {
    hide Key, Odd, Sorted;
    assert forall rq :: Held(t, rq) <==> Held(s, rq);
    assert forall rq :: Out(t, rq) <==> Out(s, rq);
    assert forall rq | Out(s, rq) :: Held(s, rq);
  }

  /** What the drain check sees is enough: nothing of the barrier's epoch is left. */
  lemma DrainCheckSound(s: State)
    requires Base(s) && Waits(s) && Order(s)
    requires s.q.ordseq != {} && s.q.inFlight == 0
    requires s.q.list == [] || Rank(ReqSeq(s.q, s.q.list[0])) > Rank(Drain)
    ensures EpochGone(s)
  {
    assert FsOf(s.driver) == {};
    forall rq | Held(s, rq) && FsPool(rq)
      ensures rq.r.epoch != |s.closed|
    {
      assert rq !in FsOf(s.driver);
      var j :| 0 <= j < |s.q.list| && s.q.list[j] == rq;
      assert Held(s, s.q.list[0]);
      assert s.q.orig.value.color == Odd(|s.closed|);
      assert Key(s.q.list[0], |s.closed|) <= Key(rq, |s.closed|);
    }
  }

  lemma DrainCheckOrder(s: State)
    requires Base(s) && Waits(s) && Order(s)
    ensures var (q', e) := DrainCheck(s.q);
            Order(Close(s.(q := q'), e))
  {
    if DrainCheck(s.q) != (s.q, None) {
      DrainCheckSound(s);
      assert Drain !in s.q.ordseq;
      assert forall p: Rq | !p.Pool? :: StageOf(p) != Drain;
      hide CompleteSeq, Order, Waits;
      CompleteSeqOrder(s, {Drain}, 0);
    }
  }

  lemma MergedAway(s: State, r: Req, into: Req)
    requires Base(s) && Waits(s) && Order(s) && r in s.elevator
    ensures var t := Absorbed(s, r, into); Base(t) && Waits(t) && Order(t)
  {
    WaitsSame(s, Absorbed(s, r, into));
    hide Key, Odd, Sorted, NoDup, CurSeq, FirstError, Supported, Waits;
  }

  lemma PutMergedOrder(s: State, r: Req, into: Req)
    requires Base(s) && Waits(s) && Order(s) && Enabled(s, PutMerged(r, into))
    ensures Order(PutAway(s, r, into))
  {
    MergedAway(s, r, into);
    assert !Accounted(s.q, Pool(r));
    hide Waits, Order, DrainCheck, Base;
    DrainCheckOrder(Absorbed(s, r, into));
  }

  lemma CompletePoolOrder(s: State, r: Req, error: int)
    requires Base(s) && Waits(s) && Order(s) && Enabled(s, Complete(Pool(r), error))
    ensures Order(CompleteOne(s, Pool(r), error))
  {
    var t := Released(s, r);
    ReleasedBase(s, r);
    WaitsSame(s, t);
    ReleasedOrder(s, r);
    hide Waits, Order, DrainCheck, Base;
    DrainCheckOrder(t);
  }

  lemma ReleasedOrder(s: State, r: Req)
    requires Order(s) && Pool(r) in s.driver
    ensures Order(Released(s, r))
  {
    hide Key, Odd, Sorted;
  }

  /** Whoever is out for a stage, the drain is over. */
  lemma ProxyLeft(s: State, t: State, p: Rq)
    requires Stages(s) && Places(s) && Order(s) && !p.Pool? && p in s.driver && Drain in s.q.ordseq
    requires t == s.(q := t.q, driver := s.driver - {p}, over := t.over, reports := t.reports)
    requires t.q == s.q.(inFlight := t.q.inFlight)
    ensures Order(t) && EpochGone(t)
    ensures forall x: Rq | !x.Pool? :: Held(t, x) <==> StageOf(x) !in t.q.ordseq + {StageOf(p)}
  {
    hide Key, Odd, Sorted, NoDup, CurSeq, Supported;
    assert forall x | Held(t, x) :: Held(s, x);
    assert forall x | Out(t, x) :: Out(s, x);
  }

  lemma ReportedOrder(s: State, p: Rq, error: int)
    requires Base(s) && Waits(s) && Order(s) && !p.Pool? && p in s.driver
    ensures var t := Reported(s, p, error);
            && Waits(t) && Order(t) && EpochGone(t) && t.q.ordseq == s.q.ordseq
            && forall x: Rq | !x.Pool? :: Held(t, x) <==> StageOf(x) !in t.q.ordseq + {StageOf(p)}
  {
    assert Drain in s.q.ordseq by { assert Out(s, p) && Rank(Drain) < Rank(StageOf(p)); }
    var t := Reported(s, p, error);
    assert t == s.(q := t.q, driver := s.driver - {p}, over := s.over + [p], reports := s.reports + [error]);
    assert t.q == s.q.(inFlight := t.q.inFlight);
    assert InTurn(s.q.list);
    hide Reported, Order, Waits;
    WaitsSame(s, t);
    ProxyLeft(s, t, p);
  }

  lemma CompleteProxyOrder(s: State, p: Rq, error: int)
    requires Base(s) && Waits(s) && Order(s) && !p.Pool? && Enabled(s, Complete(p, error))
    ensures Order(CompleteOne(s, p, error))
  {
    CompleteProxyIs(s, p, error);
    ReportedOrder(s, p, error);
    hide CompleteOne, Reported, CompleteSeq, Order, Waits, EpochGone;
    CompleteSeqOrder(Reported(s, p, error), {StageOf(p)}, error);
  }

  // ----- peeking

  /** With no sequence running, a sorted request at the head is of the oldest epoch. */
  lemma HeadIsOldest(s: State)
    requires Waits(s) && Order(s) && s.q.ordseq == {} && s.q.list != [] && FsPool(s.q.list[0])
    ensures s.q.list[0].r.epoch == |s.closed|
  {
    assert Held(s, s.q.list[0]);
    if s.q.list[0].r.epoch > |s.closed| {
      BarrierBefore(s, 0, |s.closed|);
    }
  }

  lemma MarkedOrder(s: State, rq: Option<Rq>)
    requires Order(s)
    requires rq.Some? && FsPool(rq.value) ==> rq.value.r.epoch == |s.closed|
    requires rq.Some? && !rq.value.Pool? ==> forall st | Rank(st) < Rank(StageOf(rq.value)) :: st in s.q.ordseq
    ensures Order(Marked(s, rq))
  {
    hide Key, Odd, Sorted;
  }

  lemma PeekHeadOrder(s: State)
    requires Base(s) && Waits(s) && Order(s) && s.q.list != []
    requires s.q.ordseq == {} ==> !PoolBarrier(s.q.list[0])
    ensures Order(PeekNext(s))
  {
    PeekHead(s);
    var n := DoOrdered(s.q);
    var rq := s.q.list[0];
    assert PeekNext(s) == Marked(s, n.rq);
    hide DoOrdered, PeekNext, Marked;
    if n.rq.Some? && FsPool(rq) {
      if s.q.ordseq == {} {
        HeadIsOldest(s);
      } else {
        assert ReqSeq(s.q, rq) != Done;
        SameColour(s, 0);
      }
    }
    assert n.rq.Some? && !rq.Pool? ==> forall st | Rank(st) < Rank(StageOf(rq)) :: st in s.q.ordseq;
    hide Order, Waits, Base;
    MarkedOrder(s, n.rq);
  }

  lemma ProxiesSorted(o: Ordered, e: nat)
    ensures Sorted(Proxies(o), e)
    ensures forall x | x in Proxies(o) :: !x.Pool? && Key(x, e) <= 8 * e + 6
  {
  }

  /** A barrier at the head: everything behind it was inserted after it. */
  lemma BehindBarrier(s: State)
    requires Base(s) && Waits(s) && Order(s) && s.q.ordseq == {} && s.q.list != [] && PoolBarrier(s.q.list[0])
    ensures forall rq | rq in s.q.list[1..] && FsPool(rq) :: rq.r.epoch > |s.closed|
    ensures |s.closed| < |s.barriers| && s.q.list[0] == Pool(s.barriers[|s.closed|])
  {
    HeadBarrierIsNext(s);
    forall rq | rq in s.q.list[1..] && FsPool(rq)
      ensures rq.r.epoch > |s.closed|
    {
      var j :| 1 <= j < |s.q.list| && s.q.list[j] == rq;
      assert rq in s.q.list && Held(s, rq);
      assert Key(s.q.list[0], |s.closed|) <= Key(rq, |s.closed|);
      assert rq != s.q.list[0];
    }
  }

  lemma StackedSorted(s: State)
    requires Base(s) && Waits(s) && Order(s) && s.q.ordseq == {} && s.q.list != [] && PoolBarrier(s.q.list[0])
    ensures Sorted(Stacked(s).q.list, |s.closed|)
  {
    var o, e := Effective(s.q.nextOrdered, s.q.list[0].r.empty), |s.closed|;
    assert s.q.list[0] in s.q.list;
    StackedIs(s);
    BehindBarrier(s);
    ProxiesSorted(o, e);
    var tail := s.q.list[1..];
    assert Sorted(tail, e);
    assert forall y | y in tail && Ranked(y) :: Key(y, e) >= 8 * e + 8 by {
      forall y | y in tail && Ranked(y)
        ensures Key(y, e) >= 8 * e + 8
      {
        assert y in s.q.list;
      }
    }
    hide Stacked, Proxies, Effective, Order, Waits, Sorted;
    SortedConcat(Proxies(o), tail, e);
  }

  /** Stacking the embedded requests moves no other request. */
  lemma StackedHeld(s: State)
    requires Base(s) && s.q.ordseq == {} && s.q.list != [] && PoolBarrier(s.q.list[0])
    ensures var t := Stacked(s);
            && (forall rq: Rq | rq.Pool? :: Held(t, rq) <==> Held(s, rq) && rq != s.q.list[0])
            && (forall rq | Out(t, rq) :: rq.Pool? && Out(s, rq))
  {
    var t := Stacked(s);
    assert s.q.list[0] in s.q.list;
    StackedIs(s);
    StackedMembers(s);
    forall rq | Out(t, rq)
      ensures rq.Pool? && Out(s, rq)
    {
      ProxiesMembers(t.q.ordered);
    }
    hide Stacked, Proxies, ProxySet, Effective, NoDup, CurSeq, Supported, FirstError, Errors, Flight;
  }

  lemma StackedOrder(s: State)
    requires Base(s) && Waits(s) && Order(s) && s.q.ordseq == {} && s.q.list != [] && PoolBarrier(s.q.list[0])
    ensures Order(Stacked(s))
    ensures forall rq | rq in Stacked(s).q.list && FsPool(rq) :: rq.r.epoch > |s.closed|
  {
    hide Base, Stacked, Sorted, Key, Odd, Waits, NoDup, Stops;
    StackedFacts(s);
    StackedHeld(s);
    StackedSorted(s);
    StackedEpochs(s);
  }

  lemma StackedFacts(s: State)
    requires Base(s) && Order(s) && s.q.ordseq == {} && s.q.list != [] && PoolBarrier(s.q.list[0])
    ensures var t := Stacked(s);
            && t == s.(q := t.q) && t.q.ordseq == {Started} && t.q.orig == Some(s.q.list[0].r)
            && t.q.nextOrdered == s.q.nextOrdered && t.q.ordered.byDrain && !t.q.ordered.byTag
  {
    hide Stacked, Proxies, ProxySet, NoDup;
    assert s.q.list[0] in s.q.list;
    StackedIs(s);
  }

  lemma StackedEpochs(s: State)
    requires Base(s) && Waits(s) && Order(s) && s.q.ordseq == {} && s.q.list != [] && PoolBarrier(s.q.list[0])
    ensures forall rq | rq in Stacked(s).q.list && FsPool(rq) :: rq.r.epoch > |s.closed|
  {
    BehindBarrier(s);
    TailMembers(s.q.list);
    StackedMembers(s);
    hide Base, Stacked, Order, Waits, Effective, NoDup;
  }

  lemma BegunOrder(s: State)
    requires Base(s) && Waits(s) && Order(s) && s.q.ordseq == {} && s.q.list != [] && PoolBarrier(s.q.list[0])
    ensures Order(Begun(s))
  {
    var t := Stacked(s);
    assert s.q.list[0] in s.q.list;
    StackedIs(s);
    StackedStages(s);
    StackedPlaces(s);
    StackedWaits(s);
    StackedOrder(s);
    if Drain in SkipSet(t.q) {
      assert t.q.inFlight == 0 && FsOf(t.driver) == {};
      forall rq | Held(t, rq) && FsPool(rq)
        ensures rq.r.epoch != |t.closed|
      {
        assert rq !in FsOf(t.driver);
      }
    }
    hide Stacked, Proxies, Effective, Sorted, Key, Odd, Waits, Order, NoDup, Base, SkipSet, CompleteSeq;
    CompleteSeqOrder(t, SkipSet(t.q), 0);
  }

  lemma PeekBarrierOrder(s: State)
    requires Base(s) && Waits(s) && Order(s) && s.q.ordseq == {} && s.q.list != [] && PoolBarrier(s.q.list[0])
    ensures Order(PeekNext(s))
  {
    PeekBarrierIs(s);
    BegunOrder(s);
    AtOnceInTurn(s);
    hide PeekNext, Begun, Stacked, Order, Waits, Base;
    MarkedOrder(Begun(s), AtOnce(Stacked(s)));
  }

  lemma FirstProxyInTurn(o: Ordered, st: Stage)
    requires FirstProxy(o).Some? && Rank(st) < Rank(StageOf(FirstProxy(o).value))
    ensures st in {Started} + (Skipped(o) + {Drain})
    ensures CurSeq({Started} + (Skipped(o) + {Drain})) != Done
  {
  }

  lemma StaysOpen(q: Queue, stages: set<Stage>)
    requires CurSeq(q.ordseq + stages) != Done
    ensures CompleteSeq(q, stages, 0).0.ordseq == q.ordseq + stages && CompleteSeq(q, stages, 0).1 == None
  {
    hide CurSeq;
  }

  /** What a new sequence hands out at once has only skipped stages before it. */
  lemma AtOnceInTurn(s: State)
    requires Base(s) && s.q.ordseq == {} && s.q.list != [] && PoolBarrier(s.q.list[0])
    ensures var p := AtOnce(Stacked(s));
            p.Some? ==> !p.value.Pool? && forall st | Rank(st) < Rank(StageOf(p.value)) :: st in Begun(s).q.ordseq
  {
    var t := Stacked(s);
    assert s.q.list[0] in s.q.list;
    StackedIs(s);
    assert t.q.ordseq == {Started};
    hide Stacked, Base, Effective, Proxies, ProxySet;
    if AtOnce(t).Some? {
      AtOnceOf(t.q, t);
      hide AtOnce, SkipSet, CompleteSeq, Rank;
    }
  }

  lemma AtOnceOf(q: Queue, t: State)
    requires t.q == q && q.ordseq == {Started} && AtOnce(t).Some?
    ensures var p := AtOnce(t).value;
            && !p.Pool? && CompleteSeq(q, SkipSet(q), 0).1 == None
            && forall st | Rank(st) < Rank(StageOf(p)) :: st in CompleteSeq(q, SkipSet(q), 0).0.ordseq
  {
    var p, o := AtOnce(t).value, q.ordered;
    assert SkipSet(q) == Skipped(o) + {Drain};
    FirstProxyInTurn(o, Started);
    forall st | Rank(st) < Rank(StageOf(p))
      ensures st in {Started} + (Skipped(o) + {Drain})
    {
      FirstProxyInTurn(o, st);
    }
    StaysOpen(q, SkipSet(q));
    hide SkipSet, Skipped, CurSeq, CompleteSeq;
  }

  lemma BarErrorOrder(s: State, error: int)
    requires Order(s) && Base(s) && Enabled(s, BarError(error))
    ensures Order(NoteBarError(s, error))
  {
    hide Key, Odd, Sorted;
  }
}
