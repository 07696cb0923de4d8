/** Runs of a request queue with barriers: what is handed to the driver, and when. */
module BarrierProtocol {
  import opened Options
  import opened Lists
  import opened BarrierQueue

  /** A sequence that ended: the embedded requests the driver completed and the errors its stages
      reported, in order, and the error the original request was ended with. */
  datatype Closed = Closed(r: Req, over: seq<Rq>, reports: seq<int>, error: int)

  /** The queue, the requests it does not hold, and the history of the run.
      elevator: inserted for sorting and not dispatched yet; driver: dequeued and not yet
      completed; seen, done, merged: pool requests inserted, completed, and merged into
      another one; merges: which into which, in order; barriers: the barriers in the order of
      their insertion; over, reports: the embedded requests completed and the stage errors of
      the current sequence; closed: the sequences that ended. */
  datatype State = State(q: Queue, elevator: set<Req>, driver: set<Rq>,
                         seen: set<Req>, done: set<Req>, merged: set<Req>, merges: seq<Merge>,
                         barriers: seq<Req>, over: seq<Rq>, reports: seq<int>, closed: seq<Closed>)

  datatype Merge = Merge(from: Req, into: Req)

  datatype Action =
    | InsertSort(r: Req)          // a sorted fs request
    | InsertBack(r: Req)          // barriers and requests the elevator may not sort
    | InsertFront(r: Req)         // never an fs request
    | Dispatch(r: Req, pos: nat)  // the elevator moves a request to the dispatch list
    | PutMerged(r: Req, into: Req)  // a request whose bios went into another one is released
    | Peek                        // one turn of __elv_next_request
    | Start(rq: Rq)               // blk_start_request on a request peeked before
    | BarError(error: int)        // part of the barrier request fails
    | Complete(rq: Rq, error: int)
    | Reinsert(rq: Rq)            // blk_requeue_request

  /** A request with one of the stop flags of elv_dispatch_sort. */
  predicate Stops(q: Queue, rq: Rq) { !rq.Pool? || rq.r.barrier || rq in q.soft || rq in q.started }

  predicate Inserting(s: State, r: Req) {
    && r !in s.seen
    && r.color == s.q.ordcolor && r.epoch == |s.barriers|
    && (r.barrier ==> r.fs)
  }

  predicate Enabled(s: State, a: Action) {
    match a
    case InsertSort(r) => Inserting(s, r) && r.fs && !r.barrier
    case InsertBack(r) => Inserting(s, r) && s.elevator == {}
    case InsertFront(r) => Inserting(s, r) && !r.fs
    case Dispatch(r, p) => r in s.elevator && p <= |s.q.list| && forall j | p <= j < |s.q.list| :: !Stops(s.q, s.q.list[j])
    case PutMerged(r, into) => r in s.elevator && into in s.elevator && r != into
    case Peek => s.q.list != []
    case Start(rq) => rq in s.q.list && rq in s.q.started
    case BarError(error) => BarRq in s.driver
    case Complete(rq, error) => rq in s.driver
    case Reinsert(rq) => rq in s.driver
  }

  function Close(s: State, e: Option<Ended>): State {
    if e.None? then s
    else s.(closed := s.closed + [Closed(e.value.r, s.over, s.reports, e.value.error)],
            done := s.done + {e.value.r}, over := [], reports := [])
  }

  // ----- the actions, one function each

  predicate Known(s: State) { s.q.ordseq != {} ==> s.q.orig.Some? }

  function AddSorted(s: State, r: Req): State { s.(elevator := s.elevator + {r}, seen := s.seen + {r}) }

  function AddBack(s: State, r: Req): State {
    s.(q := s.q.(list := s.q.list + [Pool(r)], soft := s.q.soft + {Pool(r)},
                 ordcolor := if r.barrier then !s.q.ordcolor else s.q.ordcolor),
       seen := s.seen + {r}, barriers := if r.barrier then s.barriers + [r] else s.barriers)
  }

  function AddFront(s: State, r: Req): State {
    s.(q := s.q.(list := [Pool(r)] + s.q.list, soft := s.q.soft + {Pool(r)}), seen := s.seen + {r})
  }

  function MoveToList(s: State, r: Req, p: nat): State
    requires p <= |s.q.list|
  {
    s.(q := s.q.(list := InsertAt(s.q.list, p, Pool(r))), elevator := s.elevator - {r})
  }

  function Absorbed(s: State, r: Req, into: Req): State {
    s.(elevator := s.elevator - {r}, merged := s.merged + {r}, merges := s.merges + [Merge(r, into)])
  }

  function PutAway(s: State, r: Req, into: Req): State
    requires Known(s)
  {
    var (q', e) := CompletedRequest(s.q, Pool(r));
    Close(Absorbed(s, r, into).(q := q'), e)
  }

  function PeekNext(s: State): State
    requires Known(s) && s.q.list != []
  {
    var n := DoOrdered(s.q);
    var q' := if n.rq.Some? then n.q.(started := n.q.started + {n.rq.value}) else n.q;
    Close(s.(q := q'), n.ended)
  }

  function StartOne(s: State, rq: Rq): State
    requires rq in s.q.list
  {
    s.(q := s.q.(list := Without(s.q.list, rq),
                 inFlight := if Accounted(s.q, rq) then s.q.inFlight + 1 else s.q.inFlight),
       driver := s.driver + {rq})
  }

  function NoteBarError(s: State, error: int): State {
    s.(q := s.q.(orderr := if error != 0 && s.q.orderr == 0 then error else s.q.orderr),
       reports := s.reports + [error])
  }

  function CompleteOne(s: State, rq: Rq, error: int): State
    requires Known(s)
  {
    if rq.Pool? then
      var (q', e) := CompletedRequest(s.q, rq);
      Close(s.(q := q', driver := s.driver - {rq}, done := s.done + {rq.r}), e)
    else
      var (q', e1, e2) := ProxyEndIo(s.q, rq, error);
      var t := s.(q := q', driver := s.driver - {rq}, over := s.over + [rq], reports := s.reports + [error]);
      Close(Close(t, e1), e2)
  }

  function PutBack(s: State, rq: Rq): State
    requires Known(s)
  {
    s.(q := Requeue(s.q, rq), driver := s.driver - {rq})
  }

  function Apply(s: State, a: Action): State
    requires Enabled(s, a) && Known(s)
  {
    match a
    case InsertSort(r) => AddSorted(s, r)
    case InsertBack(r) => AddBack(s, r)
    case InsertFront(r) => AddFront(s, r)
    case Dispatch(r, p) => MoveToList(s, r, p)
    case PutMerged(r, into) => PutAway(s, r, into)
    case Peek => PeekNext(s)
    case Start(rq) => StartOne(s, rq)
    case BarError(error) => NoteBarError(s, error)
    case Complete(rq, error) => CompleteOne(s, rq, error)
    case Reinsert(rq) => PutBack(s, rq)
  }

  // ----- what every run keeps, whatever the mode

  function FirstError(reports: seq<int>): int {
    if reports == [] then 0 else if reports[0] != 0 then reports[0] else FirstError(reports[1..])
  }

  lemma FirstErrorAppend(reports: seq<int>, e: int)
    ensures FirstError(reports + [e]) == if FirstError(reports) != 0 then FirstError(reports) else e
  {
    if reports != [] {
      FirstErrorAppend(reports[1..], e);
      assert (reports + [e])[1..] == reports[1..] + [e];
    }
  }

  function FsOf(driver: set<Rq>): set<Rq> { set rq | rq in driver && IsFs(rq) }

  predicate PoolBarrier(rq: Rq) { rq.Pool? && rq.r.fs && rq.r.barrier }

  function Odd(n: nat): bool { n % 2 == 1 }

  /** The first barrier whose sequence has not started yet. */
  function Waiting(s: State): nat { |s.closed| + if s.q.ordseq == {} then 0 else 1 }

  /** The order of the barriers in a list. */
  ghost predicate InTurn(list: seq<Rq>) {
    forall i, j | 0 <= i < j < |list| && PoolBarrier(list[i]) && PoolBarrier(list[j]) ::
      list[i].r.epoch < list[j].r.epoch
  }

  /** Barriers wait in the list in the order of their insertion, are taken one at a time, and
      their colours alternate. */
  ghost predicate Waits(s: State) {
    && Waiting(s) <= |s.barriers|
    && s.q.ordcolor == Odd(|s.barriers|)
    && (forall e | 0 <= e < |s.barriers| ::
          var b := s.barriers[e]; b.epoch == e && b.fs && b.barrier && b.color == Odd(e) && b in s.seen)
    && (forall e | Waiting(s) <= e < |s.barriers| :: Pool(s.barriers[e]) in s.q.list)
    && (forall rq | rq in s.q.list && PoolBarrier(rq) ::
          Waiting(s) <= rq.r.epoch < |s.barriers| && rq.r == s.barriers[rq.r.epoch])
    && InTurn(s.q.list)
    && (s.q.ordseq != {} ==> s.q.orig == Some(s.barriers[|s.closed|]))
    && (forall i | 0 <= i < |s.closed| :: s.closed[i].r == s.barriers[i])
  }

  /** Each request is in one place. */
  ghost predicate Places(s: State) {
    && NoDup(s.q.list)
    && (forall rq | rq in s.q.list :: rq !in s.driver)
    && (forall r: Req | Pool(r) in s.q.list || Pool(r) in s.driver :: r in s.seen && r !in s.elevator)
    && (forall r | r in s.elevator :: r in s.seen && r.fs && !r.barrier)
    && (forall rq | rq in s.driver || (rq in s.q.list && rq in s.q.started) :: !PoolBarrier(rq))
    && (forall r: Req | Pool(r) in s.q.started :: r in s.seen && r !in s.elevator)
  }

  /** The bits of ordseq name exactly the stages that are through. */
  ghost predicate Stages(s: State) {
    var q := s.q;
    && Supported(q.nextOrdered) && !q.bug
    && (q.ordseq == {} ==> q.orig.None? && forall p: Rq | !p.Pool? :: p !in q.list && p !in s.driver)
    && (q.ordseq != {} ==>
          && Started in q.ordseq && Done !in q.ordseq && CurSeq(q.ordseq) != Done
          && q.orig.Some? && q.orig.value.fs && q.orig.value.barrier && q.orig.value in s.seen
          && Pool(q.orig.value) !in q.list
          && forall p: Rq | !p.Pool? :: (p in q.list || p in s.driver) <==> StageOf(p) !in q.ordseq)
  }

  /** The recorded error is the first one any stage reported. */
  ghost predicate Errors(s: State) {
    && (s.q.ordseq == {} ==> s.reports == [])
    && (s.q.ordseq != {} ==> s.q.orderr == FirstError(s.reports))
    && (forall c | c in s.closed :: c.error == FirstError(c.reports))
  }

  /** in_flight counts the fs requests at the driver. */
  ghost predicate Flight(s: State) {
    s.q.inFlight == |FsOf(s.driver)| && s.driver <= s.q.started
  }

  ghost predicate Base(s: State) { Places(s) && Stages(s) && Errors(s) && Flight(s) }

  /** What each action keeps, one lemma an action; Waits is kept by lemmas of its own. */

  lemma InsertSortBase(s: State, r: Req)
    requires Base(s) && Enabled(s, InsertSort(r))
    ensures Base(AddSorted(s, r))
  {
  }

  lemma InsertBackBase(s: State, r: Req)
    requires Base(s) && Enabled(s, InsertBack(r))
    ensures Base(AddBack(s, r))
  {
    var s' := AddBack(s, r);
    assert s'.q.list == InsertAt(s.q.list, |s.q.list|, Pool(r));
    InsertAtMembers(s.q.list, |s.q.list|, Pool(r));
  }

  lemma InsertFrontBase(s: State, r: Req)
    requires Base(s) && Enabled(s, InsertFront(r))
    ensures Base(AddFront(s, r))
  {
    var s' := AddFront(s, r);
    assert s'.q.list == InsertAt(s.q.list, 0, Pool(r));
    InsertAtMembers(s.q.list, 0, Pool(r));
  }

  lemma DispatchBase(s: State, r: Req, p: nat)
    requires Base(s) && Enabled(s, Dispatch(r, p))
    ensures Base(MoveToList(s, r, p))
  {
    InsertAtMembers(s.q.list, p, Pool(r));
  }

  lemma StartPlaces(s: State, rq: Rq)
    requires Places(s) && Enabled(s, Start(rq))
    ensures Places(StartOne(s, rq)) && forall x :: x in StartOne(s, rq).q.list <==> x in s.q.list && x != rq
  {
    WithoutMembers(s.q.list, rq);
    hide Without, IndexOf, NoDup;
  }

  lemma StartFlight(s: State, rq: Rq)
    requires Places(s) && Flight(s) && Enabled(s, Start(rq))
    ensures Flight(StartOne(s, rq))
  {
    hide Without, NoDup, FsOf;
    assert rq !in s.driver;
    FsOfAdded(s.driver, rq);
  }

  lemma FsOfAdded(driver: set<Rq>, rq: Rq)
    requires rq !in driver
    ensures |FsOf(driver + {rq})| == |FsOf(driver)| + if IsFs(rq) then 1 else 0
  {
    hide IsFs;
    assert FsOf(driver + {rq}) == if IsFs(rq) then FsOf(driver) + {rq} else FsOf(driver);
  }

  lemma StartBase(s: State, rq: Rq)
    requires Base(s) && Enabled(s, Start(rq))
    ensures Base(StartOne(s, rq))
  {
    StartPlaces(s, rq);
    StartFlight(s, rq);
    hide Places, Flight, Without, CurSeq, FirstError, Supported, StageOf;
  }

  lemma RequeueInserts(q: Queue, rq: Rq) returns (p: nat)
    requires q.ordseq != {} ==> q.orig.Some?
    ensures p <= |q.list|
    ensures Requeue(q, rq) ==
              q.(inFlight := if Accounted(q, rq) then q.inFlight - 1 else q.inFlight,
                 started := q.started - {rq}, soft := q.soft + {rq}, list := InsertAt(q.list, p, rq))
    ensures q.ordseq == {} ==> p == 0
    ensures q.ordseq != {} ==>
              && (forall j | 0 <= j < p :: Rank(ReqSeq(q, rq)) > Rank(ReqSeq(q, q.list[j])))
              && (p < |q.list| ==> Rank(ReqSeq(q, rq)) <= Rank(ReqSeq(q, q.list[p])))
  {
    var q1 := q.(inFlight := if Accounted(q, rq) then q.inFlight - 1 else q.inFlight,
                 started := q.started - {rq}, soft := q.soft + {rq});
    p := if q.ordseq == {} then 0 else RequeuePos(q1, rq, 0);
    if q.ordseq != {} {
      RequeuePosIs(q1, rq, 0);
      assert forall x :: ReqSeq(q1, x) == ReqSeq(q, x);
    }
    hide RequeuePos, ReqSeq;
  }

  /** The state with a request moved from the driver to place p of the list. */
  function Returned(s: State, rq: Rq, p: nat): State
    requires p <= |s.q.list|
  {
    s.(q := s.q.(inFlight := if Accounted(s.q, rq) then s.q.inFlight - 1 else s.q.inFlight,
                 started := s.q.started - {rq}, soft := s.q.soft + {rq}, list := InsertAt(s.q.list, p, rq)),
       driver := s.driver - {rq})
  }

  lemma ReturnedPlaces(s: State, rq: Rq, p: nat)
    requires Places(s) && rq in s.driver && p <= |s.q.list|
    ensures Places(Returned(s, rq, p))
  {
    InsertAtMembers(s.q.list, p, rq);
    hide InsertAt, NoDup;
  }

  lemma ReturnedStages(s: State, rq: Rq, p: nat)
    requires Stages(s) && Errors(s) && Flight(s) && rq in s.driver && p <= |s.q.list|
    requires !PoolBarrier(rq)
    ensures Stages(Returned(s, rq, p)) && Errors(Returned(s, rq, p)) && Flight(Returned(s, rq, p))
  {
    InsertAtMembers(s.q.list, p, rq);
    hide InsertAt, NoDup, CurSeq, FirstError, Supported;
    assert FsOf(Returned(s, rq, p).driver) == FsOf(s.driver) - {rq};
  }

  lemma PutBackIs(s: State, rq: Rq) returns (p: nat)
    requires Known(s)
    ensures p <= |s.q.list| && PutBack(s, rq) == Returned(s, rq, p)
    ensures s.q.ordseq == {} ==> p == 0
    ensures s.q.ordseq != {} ==>
              && (forall j | 0 <= j < p :: Rank(ReqSeq(s.q, rq)) > Rank(ReqSeq(s.q, s.q.list[j])))
              && (p < |s.q.list| ==> Rank(ReqSeq(s.q, rq)) <= Rank(ReqSeq(s.q, s.q.list[p])))
  {
    p := RequeueInserts(s.q, rq);
    hide Requeue;
  }

  lemma ReinsertBase(s: State, rq: Rq)
    requires Base(s) && rq in s.driver
    ensures Base(PutBack(s, rq))
  {
    var p := PutBackIs(s, rq);
    ReturnedPlaces(s, rq, p);
    ReturnedStages(s, rq, p);
    hide PutBack, Returned, Places, Stages, Errors, Flight;
  }

  lemma BarErrorBase(s: State, error: int)
    requires Base(s) && Enabled(s, BarError(error))
    ensures Base(NoteBarError(s, error))
  {
    FirstErrorAppend(s.reports, error);
  }

  // ----- ending stages

  /** The state of a sequence just before these stages are ended. */
  ghost predicate Ending(s: State, stages: set<Stage>, error: int) {
    && Places(s) && Flight(s) && !s.q.bug && Supported(s.q.nextOrdered)
    && s.q.ordseq != {} && Started in s.q.ordseq && Done !in s.q.ordseq && CurSeq(s.q.ordseq) != Done
    && s.q.orig.Some? && s.q.orig.value.fs && s.q.orig.value.barrier && s.q.orig.value in s.seen
    && Pool(s.q.orig.value) !in s.q.list
    && Done !in stages && s.q.ordseq * stages == {}
    && (forall p: Rq | !p.Pool? :: (p in s.q.list || p in s.driver) <==> StageOf(p) !in s.q.ordseq + stages)
    && FirstError(s.reports) == (if error != 0 && s.q.orderr == 0 then error else s.q.orderr)
    && (forall c | c in s.closed :: c.error == FirstError(c.reports))
  }

  /** Ending stages that are not through yet: the error kept is the first one reported, and
      once all stages are through the original request ends with it. */
  lemma CompleteSeqBase(s: State, stages: set<Stage>, error: int)
    requires Ending(s, stages, error)
    ensures var (q', e) := CompleteSeq(s.q, stages, error);
            Base(Close(s.(q := q'), e))
  {
    var (q', e) := CompleteSeq(s.q, stages, error);
    var all := s.q.ordseq + stages;
    if CurSeq(all) == Done {
      assert Started in all && Drain in all && Pre in all && Bar in all && Post in all;
      forall p: Rq | !p.Pool?
        ensures p !in s.q.list && p !in s.driver
      {
        assert StageOf(p) in all;
      }
    }
  }

  lemma DrainCheckBase(s: State)
    requires Base(s)
    ensures var (q', e) := DrainCheck(s.q);
            Base(Close(s.(q := q'), e))
  {
    if DrainCheck(s.q) != (s.q, None) {
      assert Drain !in s.q.ordseq;
      CompleteSeqBase(s, {Drain}, 0);
    }
  }

  lemma PutMergedBase(s: State, r: Req, into: Req)
    requires Base(s) && Enabled(s, PutMerged(r, into))
    ensures Base(PutAway(s, r, into))
  {
    DrainCheckBase(Absorbed(s, r, into));
  }

  /** A pool request completes, before anyone looks whether the queue has drained. */
  function Released(s: State, r: Req): State {
    s.(q := s.q.(inFlight := if Accounted(s.q, Pool(r)) then s.q.inFlight - 1 else s.q.inFlight),
       driver := s.driver - {Pool(r)}, done := s.done + {r})
  }

  lemma ReleasedBase(s: State, r: Req)
    requires Base(s) && Pool(r) in s.driver
    ensures Base(Released(s, r))
  {
    hide NoDup, CurSeq, FirstError, Supported;
    assert FsOf(Released(s, r).driver) == FsOf(s.driver) - {Pool(r)};
  }

  lemma CompletePoolBase(s: State, r: Req, error: int)
    requires Base(s) && Enabled(s, Complete(Pool(r), error))
    ensures Base(CompleteOne(s, Pool(r), error))
  {
    ReleasedBase(s, r);
    DrainCheckBase(Released(s, r));
  }

  /** While a stage's request is at the driver the sequence cannot end, so the drain check in
      its completion never does. */
  lemma DrainCheckStays(q: Queue, stage: Stage)
    requires q.ordseq != {} && q.orig.Some? && Started in q.ordseq && Done !in q.ordseq
    requires stage == Pre || stage == Bar || stage == Post
    requires stage !in q.ordseq
    ensures var (q', e) := DrainCheck(q);
            e == None && q' == q.(ordseq := q'.ordseq) && stage !in q'.ordseq && Done !in q'.ordseq
            && CurSeq(q'.ordseq) != Done
            && (q'.ordseq == q.ordseq || q'.ordseq == q.ordseq + {Drain})
  {
  }

  /** The state after a stage's request left the driver, before its bit is set. */
  function Reported(s: State, p: Rq, error: int): State
    requires !p.Pool? && Known(s)
  {
    s.(q := CompletedRequest(s.q, p).0, driver := s.driver - {p}, over := s.over + [p], reports := s.reports + [error])
  }

  lemma CompleteProxyIs(s: State, p: Rq, error: int)
    requires Stages(s) && Flight(s) && !p.Pool? && p in s.driver
    ensures var t := Reported(s, p, error); var (q', e) := CompleteSeq(t.q, {StageOf(p)}, error);
            CompleteOne(s, p, error) == Close(t.(q := q'), e)
    ensures var t := Reported(s, p, error);
            && (t.q.ordseq == s.q.ordseq || t.q.ordseq == s.q.ordseq + {Drain})
            && StageOf(p) !in t.q.ordseq && Done !in t.q.ordseq && CurSeq(t.q.ordseq) != Done
            && t.q == s.q.(ordseq := t.q.ordseq, inFlight := if IsFs(p) then s.q.inFlight - 1 else s.q.inFlight)
  {
    DrainCheckStays(s.q.(inFlight := if Accounted(s.q, p) then s.q.inFlight - 1 else s.q.inFlight), StageOf(p));
    hide DrainCheck, CompleteSeq, CurSeq;
  }

  lemma ReportedKeeps(s: State, p: Rq, error: int)
    requires Base(s) && !p.Pool? && p in s.driver
    ensures Places(Reported(s, p, error)) && Flight(Reported(s, p, error))
  {
    CompleteProxyIs(s, p, error);
    hide CompleteOne, CompleteSeq, Reported, NoDup, CurSeq, Supported, FirstError;
    var d := s.driver - {p};
    assert FsOf(d) == FsOf(s.driver) - {p};
    assert Reported(s, p, error).driver == d;
  }

  lemma ReportedStages(s: State, t: State, p: Rq)
    requires Stages(s) && (forall rq | rq in s.q.list :: rq !in s.driver) && !p.Pool? && p in s.driver
    requires t.q.list == s.q.list && t.driver == s.driver - {p}
    requires t.q.ordseq == s.q.ordseq || t.q.ordseq == s.q.ordseq + {Drain}
    requires StageOf(p) !in t.q.ordseq
    ensures forall x: Rq | !x.Pool? :: (x in t.q.list || x in t.driver) <==> StageOf(x) !in t.q.ordseq + {StageOf(p)}
    ensures t.q.ordseq * {StageOf(p)} == {} && Started in t.q.ordseq
  {
    hide CurSeq, Supported;
  }

  lemma ReportedEnding(s: State, p: Rq, error: int)
    requires Base(s) && !p.Pool? && p in s.driver
    ensures Ending(Reported(s, p, error), {StageOf(p)}, error)
  {
    CompleteProxyIs(s, p, error);
    ReportedKeeps(s, p, error);
    var t := Reported(s, p, error);
    assert t == s.(q := t.q, driver := s.driver - {p}, over := s.over + [p], reports := s.reports + [error]);
    FirstErrorAppend(s.reports, error);
    ReportedStages(s, t, p);
    assert s.q.orderr == FirstError(s.reports);
    assert Done !in {StageOf(p)};
    hide CompleteOne, Reported, CompleteSeq, CurSeq, FirstError, Supported, NoDup, Places, Flight, StageOf;
  }

  lemma CompleteProxyBase(s: State, p: Rq, error: int)
    requires Base(s) && !p.Pool? && Enabled(s, Complete(p, error))
    ensures Base(CompleteOne(s, p, error))
  {
    CompleteProxyIs(s, p, error);
    ReportedEnding(s, p, error);
    hide CompleteOne, Reported, CompleteSeq, Ending, Base;
    CompleteSeqBase(Reported(s, p, error), {StageOf(p)}, error);
  }

  // ----- peeking

  /** While a sequence runs, a barrier at the head is the next one, of the other colour. */
  lemma HeadBarrierDiffers(s: State)
    requires Stages(s) && Waits(s)
    requires s.q.ordseq != {} && s.q.list != [] && PoolBarrier(s.q.list[0])
    ensures ReqSeq(s.q, s.q.list[0]) == Done
  {
    var e := Waiting(s);
    var b := s.q.list[0].r;
    var k :| 0 <= k < |s.q.list| && s.q.list[k] == Pool(s.barriers[e]);
    assert b.epoch == e;
  }

  /** Short of starting a sequence, peeking returns the head or nothing, and never a barrier. */
  lemma PeekHead(s: State)
    requires Stages(s) && Waits(s) && s.q.list != []
    requires s.q.ordseq == {} ==> !PoolBarrier(s.q.list[0])
    ensures var n := DoOrdered(s.q);
            n == Next(s.q, true, n.rq, None) && (n.rq.Some? ==> n.rq.value == s.q.list[0] && !PoolBarrier(s.q.list[0]))
    ensures var n := DoOrdered(s.q);
            s.q.ordseq != {} && s.q.ordered.byDrain && !s.q.ordered.byTag && n.rq.Some? ==>
              (!IsFs(s.q.list[0]) && s.q.list[0].Pool?) || Rank(ReqSeq(s.q, s.q.list[0])) <= Rank(CurSeq(s.q.ordseq))
  {
    hide StartOrdered;
    if s.q.ordseq != {} && PoolBarrier(s.q.list[0]) {
      HeadBarrierDiffers(s);
    }
  }

  lemma PeekHeadBase(s: State)
    requires Base(s) && Waits(s) && s.q.list != []
    requires s.q.ordseq == {} ==> !PoolBarrier(s.q.list[0])
    ensures Base(PeekNext(s))
  {
    PeekHead(s);
    hide DoOrdered, CurSeq, FirstError, Supported, NoDup, Waits;
  }

  lemma ProxiesMembers(o: Ordered)
    ensures NoDup(Proxies(o))
    ensures forall rq :: rq in Proxies(o) <==>
              ((rq == PostFlush && o.doPost) || (rq == BarRq && o.doBar) || (rq == PreFlush && o.doPre))
    ensures FirstProxy(o).Some? ==> FirstProxy(o).value in Proxies(o)
  {
    assert o.doPre ==> Proxies(o)[0] == PreFlush;
    assert o.doPost ==> Proxies(o)[|Proxies(o)| - 1] == PostFlush;
    assert o.doBar ==> Proxies(o)[if o.doPre then 1 else 0] == BarRq;
  }

  lemma ConcatMembers(a: seq<Rq>, b: seq<Rq>)
    requires NoDup(a) && NoDup(b) && forall rq | rq in a :: rq !in b
    ensures NoDup(a + b)
  {
    assert forall i | 0 <= i < |a| :: a[i] in a;
    assert forall i | 0 <= i < |b| :: b[i] in b;
  }

  /** The state start_ordered is in once the embedded requests are on the list. */
  function Stacked(s: State): State
    requires s.q.list != [] && s.q.list[0].Pool?
  {
    var r := s.q.list[0].r;
    var o := Effective(s.q.nextOrdered, r.empty);
    var q1 := DequeueHead(s.q.(orderr := 0, ordered := o, ordseq := s.q.ordseq + {Started})).(orig := Some(r));
    s.(q := PushAll(q1, o))
  }

  function SkipSet(q: Queue): set<Stage> {
    Skipped(q.ordered) + if q.ordered.byDrain && q.inFlight != 0 then {} else {Drain}
  }

  /** What start_ordered does is: stack the requests, end the skipped stages. */
  lemma StartOrderedIs(s: State)
    requires s.q.list != [] && s.q.list[0].Pool?
    ensures var t := Stacked(s); var (q', e) := CompleteSeq(t.q, SkipSet(t.q), 0);
            StartOrdered(s.q) == Next(q', q'.ordseq != {},
              if t.q.ordered.byDrain && t.q.inFlight != 0 then None else FirstProxy(t.q.ordered), e)
    ensures Stacked(s).q.ordered == Effective(s.q.nextOrdered, s.q.list[0].r.empty)
  {
    hide CompleteSeq;
  }

  /** The original request leaves without having been started, so it is not in flight. */
  lemma StackedIs(s: State)
    requires s.q.list != [] && s.q.list[0].Pool? && s.q.list[0] !in s.q.started && s.q.ordseq == {}
    ensures var t := Stacked(s); var r := s.q.list[0].r; var o := Effective(s.q.nextOrdered, r.empty);
            && t == s.(q := t.q)
            && t.q == s.q.(orderr := 0, ordered := o, ordseq := {Started}, orig := Some(r),
                           list := Proxies(o) + s.q.list[1..], started := t.q.started, soft := t.q.soft)
            && t.q.started == s.q.started - ProxySet(o)
  {
    hide Effective, Proxies, ProxySet;
  }

  lemma TailMembers(list: seq<Rq>)
    requires list != [] && NoDup(list)
    ensures NoDup(list[1..])
    ensures forall rq :: rq in list[1..] <==> rq in list && rq != list[0]
  {
    assert list == [list[0]] + list[1..];
  }

  lemma StackedMembers(s: State)
    requires Base(s) && s.q.ordseq == {} && s.q.list != [] && PoolBarrier(s.q.list[0])
    ensures var t := Stacked(s); var r := s.q.list[0].r; var o := Effective(s.q.nextOrdered, r.empty);
            && NoDup(t.q.list)
            && (forall rq :: rq in t.q.list <==>
                  ((rq in s.q.list && rq != Pool(r)) || (rq == PostFlush && o.doPost)
                   || (rq == BarRq && o.doBar) || (rq == PreFlush && o.doPre)))
            && (forall rq :: rq in t.q.started ==> rq in s.q.started)
            && (forall rq: Rq | rq.Pool? :: rq in t.q.started <==> rq in s.q.started)
  {
    var o := Effective(s.q.nextOrdered, s.q.list[0].r.empty);
    BarrierAtHead(s);
    StackedIs(s);
    StackedList(s.q.list, o);
    hide Base, Stacked, Proxies, Effective, FirstProxy, NoDup, PoolBarrier;
  }

  /** While no sequence is in progress a barrier at the head has not been started, and no
      embedded request is on the list. */
  lemma BarrierAtHead(s: State)
    requires Base(s) && s.q.ordseq == {} && s.q.list != [] && PoolBarrier(s.q.list[0])
    ensures NoDup(s.q.list) && s.q.list[0] !in s.q.started && forall p: Rq | !p.Pool? :: p !in s.q.list
  {
    assert s.q.list[0] in s.q.list;
    hide NoDup;
  }

  lemma StackedList(list: seq<Rq>, o: Ordered)
    requires list != [] && NoDup(list) && forall p: Rq | !p.Pool? :: p !in list
    ensures NoDup(Proxies(o) + list[1..])
    ensures forall rq :: rq in Proxies(o) + list[1..] <==>
              ((rq in list && rq != list[0]) || (rq == PostFlush && o.doPost)
               || (rq == BarRq && o.doBar) || (rq == PreFlush && o.doPre))
  {
    TailMembers(list);
    ProxiesMembers(o);
    hide NoDup, Proxies, FirstProxy;
    ConcatMembers(Proxies(o), list[1..]);
  }

  /** The skipped stages are those without an embedded request. */
  lemma SkippedStages(o: Ordered, extra: set<Stage>, p: Rq)
    requires !p.Pool? && extra <= {Drain}
    ensures StageOf(p) !in {Started} + (Skipped(o) + extra) <==>
              ((p == PostFlush && o.doPost) || (p == BarRq && o.doBar) || (p == PreFlush && o.doPre))
    ensures {Started} * (Skipped(o) + extra) == {} && Done !in Skipped(o) + extra
  {
  }

  lemma StackedStages(s: State)
    requires Base(s) && s.q.ordseq == {} && s.q.list != [] && PoolBarrier(s.q.list[0])
    ensures var t := Stacked(s);
            && (forall p: Rq | !p.Pool? :: (p in t.q.list || p in t.driver) <==> StageOf(p) !in t.q.ordseq + SkipSet(t.q))
            && t.q.ordseq * SkipSet(t.q) == {} && Done !in SkipSet(t.q)
  {
    assert s.q.list[0] in s.q.list;
    StackedIs(s);
    StackedMembers(s);
    var t := Stacked(s);
    var extra := if t.q.ordered.byDrain && t.q.inFlight != 0 then {} else {Drain};
    assert SkipSet(t.q) == Skipped(t.q.ordered) + extra;
    SkippedStages(t.q.ordered, extra, BarRq);
    hide Stacked, NoDup, CurSeq, FirstError, Supported, Effective, Proxies, Places, Errors, Flight, SkipSet, Skipped;
    forall p: Rq | !p.Pool?
      ensures (p in t.q.list || p in t.driver) <==> StageOf(p) !in t.q.ordseq + SkipSet(t.q)
    {
      SkippedStages(t.q.ordered, extra, p);
    }
  }

  lemma StackedPlaces(s: State)
    requires Base(s) && s.q.ordseq == {} && s.q.list != [] && PoolBarrier(s.q.list[0])
    ensures Places(Stacked(s)) && Flight(Stacked(s))
  {
    assert s.q.list[0] in s.q.list;
    StackedIs(s);
    StackedMembers(s);
    hide Stacked, NoDup, CurSeq, FirstError, Supported, Effective, Proxies, Errors;
  }

  /** A new sequence with its skipped stages ended. */
  function Begun(s: State): State
    requires s.q.list != [] && s.q.list[0].Pool?
  {
    var t := Stacked(s);
    var (q', e) := CompleteSeq(t.q, SkipSet(t.q), 0);
    Close(t.(q := q'), e)
  }

  function Marked(s: State, rq: Option<Rq>): State {
    if rq.None? then s else s.(q := s.q.(started := s.q.started + {rq.value}))
  }

  /** The request a new sequence hands out at once. */
  function AtOnce(t: State): Option<Rq> {
    if t.q.ordered.byDrain && t.q.inFlight != 0 then None else FirstProxy(t.q.ordered)
  }

  lemma PeekBarrierIs(s: State)
    requires Stages(s) && s.q.ordseq == {} && s.q.list != [] && PoolBarrier(s.q.list[0])
    ensures PeekNext(s) == Marked(Begun(s), AtOnce(Stacked(s)))
  {
    StartOrderedIs(s);
    assert s.q.nextOrdered != OrderedNone;
    assert DoOrdered(s.q) == StartOrdered(s.q);
    hide DoOrdered, StartOrdered, Stacked;
  }

  lemma StackedOriginal(s: State)
    requires Base(s) && s.q.ordseq == {} && s.q.list != [] && PoolBarrier(s.q.list[0])
    ensures var t := Stacked(s);
            && CurSeq(t.q.ordseq) == Drain && t.q.orig == Some(s.q.list[0].r) && t.q.ordseq == {Started}
            && Pool(t.q.orig.value) !in t.q.list && t.q.orig.value in s.seen
            && t.q.orderr == 0 && FirstError(t.reports) == 0 && !t.q.bug && t.q.nextOrdered == s.q.nextOrdered
            && t.closed == s.closed && t.seen == s.seen
  {
    hide StageOf, Stacked, Effective, SkipSet, Supported, Proxies, ProxySet, NoDup;
    assert s.q.list[0] in s.q.list;
    StackedIs(s);
    assert CurSeq(Stacked(s).q.ordseq) == Drain;
    StackedMembers(s);
  }

  lemma StackedEnding(s: State)
    requires Base(s) && s.q.ordseq == {} && s.q.list != [] && PoolBarrier(s.q.list[0])
    ensures Ending(Stacked(s), SkipSet(Stacked(s).q), 0)
  {
    StackedStages(s);
    StackedPlaces(s);
    StackedOriginal(s);
    hide StageOf, Stacked, NoDup, Effective, SkipSet, Places, Flight, Supported, Proxies, ProxySet, CurSeq, FirstError;
  }

  lemma BegunBase(s: State)
    requires Base(s) && s.q.ordseq == {} && s.q.list != [] && PoolBarrier(s.q.list[0])
    ensures Base(Begun(s))
  {
    StackedEnding(s);
    hide Stacked, CompleteSeq, SkipSet, Ending, Base;
    CompleteSeqBase(Stacked(s), SkipSet(Stacked(s).q), 0);
  }

  lemma MarkedBase(s: State, rq: Option<Rq>)
    requires Base(s) && (rq.Some? ==> !rq.value.Pool?)
    ensures Base(Marked(s, rq))
  {
    hide NoDup, CurSeq, FirstError, Supported;
  }

  /** Starting a sequence. */
  lemma PeekBarrierBase(s: State)
    requires Base(s) && s.q.ordseq == {} && s.q.list != [] && PoolBarrier(s.q.list[0])
    ensures Base(PeekNext(s))
  {
    PeekBarrierIs(s);
    BegunBase(s);
    hide PeekNext, Begun, Stacked, Base;
    MarkedBase(Begun(s), AtOnce(Stacked(s)));
  }

  // ----- barriers wait their turn

  lemma InTurnInsert(list: seq<Rq>, p: nat, x: Rq)
    requires p <= |list| && InTurn(list)
    requires PoolBarrier(x) ==> p == |list| && forall y | y in list && PoolBarrier(y) :: y.r.epoch < x.r.epoch
    ensures InTurn(InsertAt(list, p, x))
  {
    var l := InsertAt(list, p, x);
    assert forall i | 0 <= i < |l| :: l[i] == if i < p then list[i] else if i == p then x else list[i - 1];
  }

  lemma InTurnRemove(list: seq<Rq>, x: Rq)
    requires x in list && InTurn(list)
    ensures InTurn(Without(list, x))
  {
    hide Without, IndexOf, PoolBarrier;
    WithoutIs(list, x);
  }

  /** Only the barriers in the list matter. */
  lemma WaitsSame(s: State, t: State)
    requires Waits(s)
    requires s.seen <= t.seen && t.barriers == s.barriers && t.closed == s.closed && t.q.ordcolor == s.q.ordcolor
    requires (t.q.ordseq == {}) == (s.q.ordseq == {}) && (s.q.ordseq != {} ==> t.q.orig == s.q.orig)
    requires forall rq | PoolBarrier(rq) :: rq in t.q.list <==> rq in s.q.list
    requires InTurn(t.q.list)
    ensures Waits(t)
  {
    hide Odd, InTurn;
  }

  /** A new barrier joins the end of the line. */
  lemma WaitsAppend(s: State, t: State, r: Req)
    requires Waits(s) && r.fs && r.barrier && r.epoch == |s.barriers| && r.color == s.q.ordcolor
    requires t.seen == s.seen + {r} && t.barriers == s.barriers + [r] && t.closed == s.closed
    requires t.q.ordcolor == !s.q.ordcolor && t.q.ordseq == s.q.ordseq && t.q.orig == s.q.orig
    requires forall rq :: rq in t.q.list <==> rq in s.q.list || rq == Pool(r)
    requires InTurn(t.q.list)
    ensures Waits(t)
  {
    hide InTurn;
    assert Odd(|t.barriers|) == !Odd(|s.barriers|);
    hide Odd;
  }

  lemma InsertBackWaits(s: State, r: Req)
    requires Base(s) && Waits(s) && Enabled(s, InsertBack(r))
    ensures Waits(AddBack(s, r))
  {
    var t := AddBack(s, r);
    assert t.q.list == InsertAt(s.q.list, |s.q.list|, Pool(r));
    InsertAtMembers(s.q.list, |s.q.list|, Pool(r));
    InTurnInsert(s.q.list, |s.q.list|, Pool(r));
    hide InsertAt, Base, Waits, InTurn;
    if r.barrier {
      WaitsAppend(s, t, r);
    } else {
      WaitsSame(s, t);
    }
  }

  lemma InsertWaits(s: State, t: State, p: nat, x: Rq)
    requires Waits(s) && p <= |s.q.list| && !PoolBarrier(x)
    requires t.q.list == InsertAt(s.q.list, p, x)
    requires s.seen <= t.seen && t.barriers == s.barriers && t.closed == s.closed && t.q.ordcolor == s.q.ordcolor
    requires t.q.ordseq == s.q.ordseq && t.q.orig == s.q.orig
    ensures Waits(t)
  {
    InsertAtMembers(s.q.list, p, x);
    InTurnInsert(s.q.list, p, x);
    hide InsertAt;
    WaitsSame(s, t);
  }

  lemma StartWaits(s: State, rq: Rq)
    requires Base(s) && Waits(s) && Enabled(s, Start(rq))
    ensures Waits(StartOne(s, rq))
  {
    WithoutMembers(s.q.list, rq);
    InTurnRemove(s.q.list, rq);
    assert !PoolBarrier(rq);
    hide Without, Base;
    WaitsSame(s, StartOne(s, rq));
  }

  /** When a sequence ends, it is that of the oldest barrier not ended yet. */
  lemma CompleteSeqWaits(s: State, stages: set<Stage>, error: int)
    requires Waits(s) && s.q.ordseq != {} && s.q.orig.Some?
    ensures var (q', e) := CompleteSeq(s.q, stages, error);
            Waits(Close(s.(q := q'), e))
  {
    var (q', e) := CompleteSeq(s.q, stages, error);
    var t := Close(s.(q := q'), e);
    if e.None? {
      WaitsSame(s, t);
    } else {
      hide Odd;
      assert t.q.list == s.q.list && Waiting(t) == Waiting(s);
    }
  }

  lemma DrainCheckWaits(s: State)
    requires Waits(s) && Known(s)
    ensures var (q', e) := DrainCheck(s.q);
            Waits(Close(s.(q := q'), e))
  {
    if DrainCheck(s.q) != (s.q, None) {
      CompleteSeqWaits(s, {Drain}, 0);
    }
  }

  lemma CompleteWaits(s: State, rq: Rq, error: int)
    requires Base(s) && Waits(s) && Enabled(s, Complete(rq, error))
    ensures Waits(CompleteOne(s, rq, error))
  {
    if rq.Pool? {
      var t := Released(s, rq.r);
      WaitsSame(s, t);
      DrainCheckWaits(t);
      hide DrainCheck, Waits;
    } else {
      CompleteProxyIs(s, rq, error);
      var t := Reported(s, rq, error);
      WaitsSame(s, t);
      CompleteSeqWaits(t, {StageOf(rq)}, error);
      hide CompleteOne, Reported, CompleteSeq, Waits;
    }
  }

  lemma PutMergedWaits(s: State, r: Req, into: Req)
    requires Base(s) && Waits(s) && Enabled(s, PutMerged(r, into))
    ensures Waits(PutAway(s, r, into))
  {
    var t := Absorbed(s, r, into);
    WaitsSame(s, t);
    DrainCheckWaits(t);
    hide DrainCheck, Waits;
  }

  lemma PeekHeadWaits(s: State)
    requires Base(s) && Waits(s) && s.q.list != []
    requires s.q.ordseq == {} ==> !PoolBarrier(s.q.list[0])
    ensures Waits(PeekNext(s))
  {
    PeekHead(s);
    hide DoOrdered, Base;
    WaitsSame(s, PeekNext(s));
  }

  /** The barrier at the head is the oldest one waiting. */
  lemma HeadBarrierIsNext(s: State)
    requires Waits(s) && s.q.list != [] && PoolBarrier(s.q.list[0])
    ensures Waiting(s) < |s.barriers| && s.q.list[0] == Pool(s.barriers[Waiting(s)])
  {
    var e := Waiting(s);
    assert s.q.list[0] in s.q.list;
    var k :| 0 <= k < |s.q.list| && s.q.list[k] == Pool(s.barriers[e]);
    assert s.q.list[0].r.epoch == e;
  }

  lemma InTurnPrefix(pre: seq<Rq>, list: seq<Rq>)
    requires InTurn(list) && forall rq | rq in pre :: !PoolBarrier(rq)
    ensures InTurn(pre + list)
  {
    var l := pre + list;
    assert forall i | 0 <= i < |l| :: l[i] == if i < |pre| then pre[i] else list[i - |pre|];
    assert forall i | 0 <= i < |pre| :: pre[i] in pre;
  }

  /** Taking the oldest waiting barrier as the original request of a sequence. */
  lemma WaitsTake(s: State, t: State, r: Req)
    requires Waits(s) && s.q.ordseq == {} && t.q.ordseq != {}
    requires Waiting(s) < |s.barriers| && r == s.barriers[Waiting(s)] && t.q.orig == Some(r)
    requires t.seen == s.seen && t.barriers == s.barriers && t.closed == s.closed && t.q.ordcolor == s.q.ordcolor
    requires forall rq | PoolBarrier(rq) :: rq in t.q.list <==> rq in s.q.list && rq != Pool(r)
    requires InTurn(t.q.list)
    ensures Waits(t)
  {
    hide Odd, InTurn;
  }

  lemma StackedWaits(s: State)
    requires Base(s) && Waits(s) && s.q.ordseq == {} && s.q.list != [] && PoolBarrier(s.q.list[0])
    ensures Waits(Stacked(s))
  {
    HeadBarrierIsNext(s);
    assert s.q.list[0] in s.q.list;
    StackedIs(s);
    StackedMembers(s);
    var o := Effective(s.q.nextOrdered, s.q.list[0].r.empty);
    ProxiesMembers(o);
    assert InTurn(s.q.list[1..]);
    InTurnPrefix(Proxies(o), s.q.list[1..]);
    hide Stacked, Base, Proxies, Effective, FirstProxy;
    WaitsTake(s, Stacked(s), s.q.list[0].r);
  }

  lemma PeekBarrierWaits(s: State)
    requires Base(s) && Waits(s) && s.q.ordseq == {} && s.q.list != [] && PoolBarrier(s.q.list[0])
    ensures Waits(PeekNext(s))
  {
    PeekBarrierIs(s);
    StackedWaits(s);
    assert s.q.list[0] in s.q.list;
    StackedIs(s);
    var t := Stacked(s);
    CompleteSeqWaits(t, SkipSet(t.q), 0);
    hide PeekNext, Stacked, CompleteSeq, Waits, Base;
    var u := Begun(s);
    assert Waits(u);
    MarkedWaits(u, AtOnce(t));
  }

  lemma MarkedWaits(s: State, rq: Option<Rq>)
    requires Waits(s)
    ensures Waits(Marked(s, rq))
  {
    WaitsSame(s, Marked(s, rq));
  }
}
