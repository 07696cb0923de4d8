/** What holds in every state of every run of a queue with barriers. */
module BarrierTheorems {
  import opened Options
  import opened Lists
  import opened BarrierQueue
  import opened BarrierProtocol
  import opened BarrierOrder
  import opened BarrierProgress
  import opened BarrierStages

  ghost predicate Inv(s: State) { Base(s) && Waits(s) && (s.q.nextOrdered.byDrain ==> Order(s)) }

  function Empty(mode: Ordered): State {
    State(Queue({}, 0, OrderedNone, mode, None, false, [], 0, {}, {}, false), {}, {}, {}, {}, {}, [], [], [], [], [])
  }

  lemma EmptyInv(mode: Ordered)
    requires Supported(mode)
    ensures Inv(Empty(mode))
  {
    assert FsOf({}) == {};
  }

  lemma PeekInv(s: State)
    requires Inv(s) && Enabled(s, Peek)
    ensures Inv(PeekNext(s))
  {
    assert Known(s) && PeekNext(s).q.nextOrdered == s.q.nextOrdered by { hide DoOrdered; }
    hide Base, Waits, Order, PeekNext;
    if s.q.ordseq == {} && PoolBarrier(s.q.list[0]) {
      PeekBarrierBase(s);
      PeekBarrierWaits(s);
      if s.q.nextOrdered.byDrain { PeekBarrierOrder(s); }
    } else {
      PeekHeadBase(s);
      PeekHeadWaits(s);
      if s.q.nextOrdered.byDrain { PeekHeadOrder(s); }
    }
  }

  lemma CompleteInv(s: State, rq: Rq, error: int)
    requires Inv(s) && Enabled(s, Complete(rq, error))
    ensures Inv(CompleteOne(s, rq, error))
  {
    assert Known(s);
    assert CompleteOne(s, rq, error).q.nextOrdered == s.q.nextOrdered by { hide CompletedRequest, ProxyEndIo; }
    hide Base, Waits, Order, CompleteOne;
    CompleteWaits(s, rq, error);
    if rq.Pool? {
      CompletePoolBase(s, rq.r, error);
      if s.q.nextOrdered.byDrain { CompletePoolOrder(s, rq.r, error); }
    } else {
      CompleteProxyBase(s, rq, error);
      if s.q.nextOrdered.byDrain { CompleteProxyOrder(s, rq, error); }
    }
  }

  /** Actions that leave the barriers in the list alone. */
  lemma SortInv(s: State, r: Req)
    requires Inv(s) && Enabled(s, InsertSort(r))
    ensures Inv(AddSorted(s, r))
  {
    InsertSortBase(s, r);
    WaitsSame(s, AddSorted(s, r));
    if s.q.nextOrdered.byDrain { InsertSortOrder(s, r); }
    hide Base, Waits, Order;
  }

  lemma BackInv(s: State, r: Req)
    requires Inv(s) && Enabled(s, InsertBack(r))
    ensures Inv(AddBack(s, r))
  {
    assert Known(s);
    hide Base, Waits, Order;
    InsertBackBase(s, r);
    InsertBackWaits(s, r);
    if s.q.nextOrdered.byDrain { InsertBackOrder(s, r); }
  }

  lemma FrontInv(s: State, r: Req)
    requires Inv(s) && Enabled(s, InsertFront(r))
    ensures Inv(AddFront(s, r))
  {
    assert Known(s);
    hide Base, Waits, Order;
    var t := AddFront(s, r);
    assert t.q.list == InsertAt(s.q.list, 0, Pool(r));
    InsertFrontBase(s, r);
    hide InsertAt;
    InsertWaits(s, t, 0, Pool(r));
    if s.q.nextOrdered.byDrain { InsertFrontOrder(s, r); }
  }

  lemma DispatchInv(s: State, r: Req, p: nat)
    requires Inv(s) && Enabled(s, Dispatch(r, p))
    ensures Inv(MoveToList(s, r, p))
  {
    assert Known(s);
    assert !r.barrier;
    hide Base, Waits, Order;
    DispatchBase(s, r, p);
    InsertWaits(s, MoveToList(s, r, p), p, Pool(r));
    if s.q.nextOrdered.byDrain { DispatchOrder(s, r, p); }
  }

  lemma PutInv(s: State, r: Req, into: Req)
    requires Inv(s) && Enabled(s, PutMerged(r, into))
    ensures Inv(PutAway(s, r, into))
  {
    assert Known(s) && PutAway(s, r, into).q.nextOrdered == s.q.nextOrdered by { hide CompletedRequest; }
    hide Base, Waits, Order, PutAway;
    PutMergedBase(s, r, into);
    PutMergedWaits(s, r, into);
    if s.q.nextOrdered.byDrain { PutMergedOrder(s, r, into); }
  }

  lemma StartInv(s: State, rq: Rq)
    requires Inv(s) && Enabled(s, Start(rq))
    ensures Inv(StartOne(s, rq))
  {
    assert Known(s) && StartOne(s, rq).q.nextOrdered == s.q.nextOrdered;
    hide Base, Waits, Order, StartOne;
    StartBase(s, rq);
    StartWaits(s, rq);
    if s.q.nextOrdered.byDrain { StartOrder(s, rq); }
  }

  lemma BarErrorInv(s: State, error: int)
    requires Inv(s) && Enabled(s, BarError(error))
    ensures Inv(NoteBarError(s, error))
  {
    BarErrorBase(s, error);
    WaitsSame(s, NoteBarError(s, error));
    if s.q.nextOrdered.byDrain { BarErrorOrder(s, error); }
    hide Base, Waits, Order;
  }

  lemma ReinsertInv(s: State, rq: Rq)
    requires Inv(s) && Enabled(s, Reinsert(rq))
    ensures Inv(PutBack(s, rq))
  {
    assert Known(s) && !PoolBarrier(rq);
    hide Base, Waits, Order;
    ReinsertBase(s, rq);
    var p := PutBackIs(s, rq);
    hide PutBack, InsertAt;
    InsertWaits(s, Returned(s, rq, p), p, rq);
    if s.q.nextOrdered.byDrain { ReinsertOrder(s, rq); }
  }

  /** No action changes the mode of the queue. */
  lemma ModeKept(s: State, a: Action)
    requires Enabled(s, a) && Known(s)
    ensures Apply(s, a).q.nextOrdered == s.q.nextOrdered
  {
    hide InsertAt, Without, DoOrdered, CompletedRequest, ProxyEndIo, RequeuePos;
  }

  /** The scheduler's side: what brings requests in, sorts them and moves them on. */
  ghost predicate Entering(a: Action) {
    a.InsertSort? || a.InsertBack? || a.InsertFront? || a.Dispatch? || a.PutMerged?
  }

  lemma EnteringInv(s: State, a: Action)
    requires Inv(s) && Known(s) && Entering(a) && Enabled(s, a)
    ensures Inv(Apply(s, a))
  {
    hide Inv, Enabled, Known;
    hide AddSorted, AddBack, AddFront, MoveToList, PutAway, PeekNext, StartOne, NoteBarError, CompleteOne, PutBack;
    match a
    case InsertSort(r) => SortInv(s, r);
    case InsertBack(r) => BackInv(s, r);
    case InsertFront(r) => FrontInv(s, r);
    case Dispatch(r, p) => DispatchInv(s, r, p);
    case PutMerged(r, into) => PutInv(s, r, into);
  }

  lemma ServingInv(s: State, a: Action)
    requires Inv(s) && Known(s) && !Entering(a) && Enabled(s, a)
    ensures Inv(Apply(s, a))
  {
    hide Inv, Enabled, Known;
    hide AddSorted, AddBack, AddFront, MoveToList, PutAway, PeekNext, StartOne, NoteBarError, CompleteOne, PutBack;
    match a
    case Peek => PeekInv(s);
    case Complete(rq, error) => CompleteInv(s, rq, error);
    case Start(rq) => StartInv(s, rq);
    case BarError(error) => BarErrorInv(s, error);
    case Reinsert(rq) => ReinsertInv(s, rq);
  }

  lemma InvIsKnown(s: State)
    requires Inv(s)
    ensures Known(s)
  {
  }

  lemma StepInv(s: State, a: Action)
    requires Inv(s) && Enabled(s, a)
    ensures Inv(Apply(s, a)) && Apply(s, a).q.nextOrdered == s.q.nextOrdered
  {
    InvIsKnown(s);
    hide Inv, Enabled, Known, Apply, Entering;
    ModeKept(s, a);
    if Entering(a) { EnteringInv(s, a); } else { ServingInv(s, a); }
  }

  // ----- runs

  /** A run: from the empty queue in a supported mode, each action is possible where it happens.
      Where a sequence runs its original request is known, so every action has a result. */
  ghost predicate IsRun(run: seq<State>, acts: seq<Action>) {
    && |run| == |acts| + 1
    && Supported(run[0].q.nextOrdered) && run[0] == Empty(run[0].q.nextOrdered)
    && forall i | 0 <= i < |acts| ::
         && Known(run[i])
         && Enabled(run[i], acts[i]) && run[i + 1] == Apply(run[i], acts[i])
  }

  lemma {:induction false} RunInv(run: seq<State>, acts: seq<Action>, i: nat)
    requires IsRun(run, acts) && i < |run|
    ensures Inv(run[i]) && run[i].q.nextOrdered == run[0].q.nextOrdered
  {
    hide Inv, Apply, Enabled, Supported;
    if i == 0 {
      EmptyInv(run[0].q.nextOrdered);
    } else {
      RunInv(run, acts, i - 1);
      assert run[i - 1 + 1] == Apply(run[i - 1], acts[i - 1]);
      StepInv(run[i - 1], acts[i - 1]);
    }
  }

  /** In every mode: no stage is ended twice and no other BUG_ON fires; the barriers end in the
      order of their insertion, each once, with the first error that a stage of its own
      sequence reported; while none is in progress its embedded requests are nowhere. */
  lemma EachBarrierEndsOnce(run: seq<State>, acts: seq<Action>, i: nat)
    requires IsRun(run, acts) && i < |run|
    ensures var s := run[i];
            && !s.q.bug
            && |s.closed| <= |s.barriers|
            && (forall e | 0 <= e < |s.closed| ::
                  s.closed[e].r == s.barriers[e] && s.closed[e].error == FirstError(s.closed[e].reports))
            && (s.q.ordseq == {} ==> forall p: Rq | !p.Pool? :: !Held(s, p))
  {
    RunInv(run, acts, i);
  }

  /** In every mode, a stage's request is queued or at the driver exactly until its bit is set. */
  lemma StagesInProgress(run: seq<State>, acts: seq<Action>, i: nat)
    requires IsRun(run, acts) && i < |run| && run[i].q.ordseq != {}
    ensures forall p: Rq | !p.Pool? :: Held(run[i], p) <==> StageOf(p) !in run[i].q.ordseq
    ensures run[i].q.orderr == FirstError(run[i].reports)
    ensures CurSeq(run[i].q.ordseq) != Done
  {
    RunInv(run, acts, i);
  }

  /** Ordering by draining, requests after a barrier: whatever is handed to the driver, every
      barrier inserted before it has ended. */
  lemma NothingPassesABarrier(run: seq<State>, acts: seq<Action>, i: nat, r: Req)
    requires IsRun(run, acts) && i < |run| && run[0].q.nextOrdered.byDrain
    requires r.fs && Out(run[i], Pool(r))
    ensures !r.barrier && r.epoch == |run[i].closed|
  {
    RunInv(run, acts, i);
    assert Order(run[i]) && Places(run[i]);
  }

  // ----- which stages a sequence has

  lemma StepRecorded(s: State, a: Action)
    requires Inv(s) && Enabled(s, a) && Known(s) && Recorded(s)
    ensures Recorded(Apply(s, a))
    ensures s.q.nextOrdered.byDrain && InStep(s) ==> InStep(Apply(s, a))
  {
    InvParts(s);
    hide Inv, Base, Waits, Order, Recorded, InStep, Known;
    hide AddSorted, AddBack, AddFront, MoveToList, PutAway, PeekNext, StartOne, CompleteOne, PutBack;
    match a
    case InsertSort(r) => EnterKept(s, r);
    case InsertBack(r) => EnterKept(s, r);
    case InsertFront(r) => EnterKept(s, r);
    case Dispatch(r, p) => DispatchKept(s, r, p);
    case PutMerged(r, into) => PutKept(s, r, into);
    case Peek => if s.q.ordseq == {} && PoolBarrier(s.q.list[0]) { PeekBarrierKept(s); } else { PeekHeadKept(s); }
    case Start(rq) => StartKept(s, rq);
    case BarError(error) => BarErrorKept(s, error);
    case Complete(rq, error) => if rq.Pool? { CompletePoolKept(s, rq.r, error); } else { CompleteProxyKept(s, rq, error); }
    case Reinsert(rq) => ReinsertKept(s, rq);
  }

  lemma InvParts(s: State)
    requires Inv(s)
    ensures Base(s) && Waits(s) && (s.q.nextOrdered.byDrain ==> Order(s))
  {}

  lemma EmptyRecorded(mode: Ordered)
    ensures Recorded(Empty(mode)) && InStep(Empty(mode))
  {}

  lemma {:induction false} RunRecorded(run: seq<State>, acts: seq<Action>, i: nat)
    requires IsRun(run, acts) && i < |run|
    ensures Recorded(run[i]) && (run[0].q.nextOrdered.byDrain ==> InStep(run[i]))
  {
    hide Inv, Apply, Enabled, Supported, Recorded, InStep;
    if i == 0 {
      EmptyRecorded(run[0].q.nextOrdered);
    } else {
      RunRecorded(run, acts, i - 1);
      RunInv(run, acts, i - 1);
      assert run[i - 1 + 1] == Apply(run[i - 1], acts[i - 1]);
      StepRecorded(run[i - 1], acts[i - 1]);
    }
  }

  /** In every mode: when a barrier has ended, the driver has completed each request that the mode of
      the queue wants for it, once, and no other; the barrier's own data unless it has none.
      Ordering by draining, in the order pre-flush, barrier, post-flush. */
  lemma EachStageHappens(run: seq<State>, acts: seq<Action>, i: nat, e: nat)
    requires IsRun(run, acts) && i < |run| && e < |run[i].closed|
    ensures var mode, c := run[0].q.nextOrdered, run[i].closed[e];
            && NoDup(c.over) && (forall p: Rq :: p in c.over <==> Wants(mode, c.r.empty, p))
            && (mode.byDrain ==> c.over == Wanted(mode, c.r.empty))
  {
    RunRecorded(run, acts, i);
    RunInv(run, acts, i);
    var mode, c := run[0].q.nextOrdered, run[i].closed[e];
    assert c in run[i].closed;
    hide IsRun, Inv, Wants;
    if mode.byDrain { WantedInOrder(mode, c.r.empty, c.over); }
  }

  // ----- where merged requests end up, and progress

  lemma StepHomed(s: State, a: Action)
    requires Inv(s) && s.q.nextOrdered.byDrain && Homed(s) && Enabled(s, a) && Known(s)
    ensures Homed(Apply(s, a))
  {
    hide Homed, Waits, InsertAt, Without, DoOrdered, CompletedRequest, ProxyEndIo, Requeue, Base;
    match a
    case InsertSort(r) => HomedNew(s, AddSorted(s, r), r);
    case InsertBack(r) => HomedNew(s, AddBack(s, r), r);
    case InsertFront(r) => HomedNew(s, AddFront(s, r), r);
    case PutMerged(r, into) =>
      assert Places(s) && Epochs(s) by { OrderParts(s); }
      HomedMerged(s, r, into);
      HomedSame(Absorbed(s, r, into), PutAway(s, r, into));
    case _ => HomedSame(s, Apply(s, a));
  }

  lemma OrderParts(s: State)
    requires Inv(s) && s.q.nextOrdered.byDrain
    ensures Base(s) && Waits(s) && Order(s) && Places(s) && Epochs(s) && Known(s)
  {}

  lemma StepMoving(s: State, a: Action)
    requires Inv(s) && s.q.nextOrdered.byDrain && Moving(s) && Enabled(s, a) && Known(s)
    ensures Moving(Apply(s, a))
  {
    OrderParts(s);
    hide Inv, Base, Waits, Order, Moving, Places, Epochs, AddBack, AddFront, MoveToList, PutAway, PeekNext, StartOne, CompleteOne, PutBack;
    match a
    case InsertSort(r) => SameMoving(s, AddSorted(s, r));
    case InsertBack(r) => InsertBackMoving(s, r);
    case InsertFront(r) => InsertFrontMoving(s, r);
    case Dispatch(r, p) => DispatchMoving(s, r, p);
    case PutMerged(r, into) => PutMergedMoving(s, r, into);
    case Peek => if s.q.ordseq == {} && PoolBarrier(s.q.list[0]) { PeekBarrierMoving(s); } else { PeekHeadMoving(s); }
    case Start(rq) => StartMoving(s, rq);
    case BarError(error) => SameMoving(s, NoteBarError(s, error));
    case Complete(rq, error) => if rq.Pool? { CompletePoolMoving(s, rq.r, error); } else { CompleteProxyMoving(s, rq, error); }
    case Reinsert(rq) => ReinsertMoving(s, rq);
  }

  lemma SameMoving(s: State, t: State)
    requires Moving(s) && t.driver == s.driver && t.q == s.q.(orderr := t.q.orderr)
    ensures Moving(t)
  {}

  lemma {:induction false} RunMoves(run: seq<State>, acts: seq<Action>, i: nat)
    requires IsRun(run, acts) && i < |run| && run[0].q.nextOrdered.byDrain
    ensures Homed(run[i]) && Moving(run[i])
  {
    hide Inv, Apply, Enabled, Supported, Homed, Moving;
    if i == 0 {
      EmptyMoves(run[0].q.nextOrdered);
    } else {
      RunMoves(run, acts, i - 1);
      RunInv(run, acts, i - 1);
      assert run[i - 1 + 1] == Apply(run[i - 1], acts[i - 1]);
      StepHomed(run[i - 1], acts[i - 1]);
      StepMoving(run[i - 1], acts[i - 1]);
    }
  }

  lemma EmptyMoves(mode: Ordered)
    ensures Homed(Empty(mode)) && Moving(Empty(mode))
  {}

  /** Ordering by draining, requests before a barrier: when a flush or the barrier request is
      handed to the driver, no fs request is there, and of every fs request inserted before the
      barrier the request that has its bios in the end has completed. */
  lemma BarrierWaitsForAll(run: seq<State>, acts: seq<Action>, i: nat, p: Rq)
    requires IsRun(run, acts) && i < |run| && run[0].q.nextOrdered.byDrain
    requires !p.Pool? && Out(run[i], p)
    ensures var s := run[i];
            && |s.closed| < |s.barriers| && s.q.orig == Some(s.barriers[|s.closed|])
            && (forall r: Req | r.fs :: !Out(s, Pool(r)))
            && (forall r | r in s.seen && r.fs && r.epoch <= |s.closed| && r != s.q.orig.value ::
                  Home(s.merges, r) in s.done)
  {
    var s := run[i];
    NoneBefore(run, acts, i, p);
    RunMoves(run, acts, i);
    hide IsRun, Home, Moving;
    forall r | r in s.seen && r.fs && r.epoch <= |s.closed| && r != s.q.orig.value
      ensures Home(s.merges, r) in s.done
    {
      assert HomeOk(s, r);
    }
  }

  lemma NoneBefore(run: seq<State>, acts: seq<Action>, i: nat, p: Rq)
    requires IsRun(run, acts) && i < |run| && run[0].q.nextOrdered.byDrain
    requires !p.Pool? && Out(run[i], p)
    ensures var s := run[i];
            && |s.closed| < |s.barriers| && s.q.orig == Some(s.barriers[|s.closed|]) && s.q.orig.value.barrier
            && (forall r: Req | r.fs :: !Out(s, Pool(r)))
            && (forall r | r in s.seen && r.fs && r.epoch <= |s.closed| && r != s.q.orig.value ::
                  r in s.done || r in s.merged)
  {
    RunInv(run, acts, i);
    var s := run[i];
    assert Drain in s.q.ordseq by { assert Rank(Drain) < Rank(StageOf(p)); }
    forall r | r in s.seen && r.fs && r.epoch <= |s.closed| && r != s.q.orig.value
      ensures r in s.done || r in s.merged
    {
      assert Waiting(s) == |s.closed| + 1;
      if Held(s, Pool(r)) { assert FsPool(Pool(r)); }
    }
  }

  /** Ordering by draining: no stage's turn is ever over when its request, or one that the barrier
      waits for, is at the head, so the WARN_ON of blk_do_ordered never fires. */
  lemma HeadIsNeverLate(run: seq<State>, acts: seq<Action>, i: nat)
    requires IsRun(run, acts) && i < |run| && run[0].q.nextOrdered.byDrain
    ensures Known(run[i]) && !Late(run[i].q)
  {
    RunInv(run, acts, i);
    InvIsKnown(run[i]);
    hide IsRun;
    if run[i].q.ordseq != {} && run[i].q.list != [] {
      OrderParts(run[i]);
      NotLate(run[i]);
    }
  }

  /** Ordering by draining: while a sequence is in progress and the driver has nothing, looking at the
      head of the list hands a request out. */
  lemma NeverStuck(run: seq<State>, acts: seq<Action>, i: nat)
    requires IsRun(run, acts) && i < |run| && run[0].q.nextOrdered.byDrain
    requires run[i].q.ordseq != {} && run[i].driver == {}
    ensures run[i].q.list != [] && run[i].q.orig.Some?
    ensures var n := DoOrdered(run[i].q); n.returned && n.rq == Some(run[i].q.list[0])
  {
    RunInv(run, acts, i);
    RunMoves(run, acts, i);
    hide IsRun, Homed;
    OrderParts(run[i]);
    SomethingToDo(run[i]);
  }

  /** Ordering by draining, inside a sequence: pre-flush, barrier and post-flush are handed out
      in that order, each after the one before has completed or was left out. */
  lemma StagesInOrder(run: seq<State>, acts: seq<Action>, i: nat, p: Rq)
    requires IsRun(run, acts) && i < |run| && run[0].q.nextOrdered.byDrain
    requires !p.Pool? && Out(run[i], p)
    ensures forall p': Rq | !p'.Pool? && p' != p :: !Out(run[i], p')
    ensures forall p': Rq | !p'.Pool? && Rank(StageOf(p')) < Rank(StageOf(p)) ::
              StageOf(p') in run[i].q.ordseq && !Held(run[i], p')
  {
    RunInv(run, acts, i);
    var s := run[i];
    forall p': Rq | !p'.Pool? && p' != p
      ensures !Out(s, p')
    {
      if Rank(StageOf(p')) < Rank(StageOf(p)) {
        assert StageOf(p') in s.q.ordseq;
      } else {
        assert StageOf(p) !in s.q.ordseq && Rank(StageOf(p)) < Rank(StageOf(p'));
      }
    }
  }
}
