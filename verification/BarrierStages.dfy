/** Which stages a sequence has: what the mode of the queue asks for, and nothing else. */
module BarrierStages {
  import opened Options
  import opened Lists
  import opened BarrierQueue
  import opened BarrierProtocol
  import opened BarrierOrder

  /** A barrier with data is written; flushes go around it as the mode says, and an empty barrier is
      the first flush alone. */
  predicate Wants(mode: Ordered, empty: bool, p: Rq) {
    match p
    case PreFlush => mode.doPre
    case BarRq => !empty
    case PostFlush => mode.doPost && !empty
    case Pool(_) => false
  }

  function Wanted(mode: Ordered, empty: bool): seq<Rq> {
    (if mode.doPre then [PreFlush] else []) + (if empty then [] else [BarRq])
    + (if mode.doPost && !empty then [PostFlush] else [])
  }

  // ----- starting a sequence

  /** What start_ordered makes of the mode keeps just the wanted stages. */
  lemma EffectiveWants(mode: Ordered, empty: bool, p: Rq)
    requires Supported(mode)
    ensures Wants(mode, empty, p) <==>
              (p == PreFlush && Effective(mode, empty).doPre) || (p == BarRq && Effective(mode, empty).doBar)
              || (p == PostFlush && Effective(mode, empty).doPost)
  {}

  /** When a sequence starts for r, exactly the wanted requests are put in front of the list, in order. */
  lemma SequenceStarts(q: Queue)
    requires Supported(q.nextOrdered) && q.list != [] && q.list[0].Pool?
    ensures var n, r := StartOrdered(q), q.list[0].r;
            n.q.list == Wanted(q.nextOrdered, r.empty) + q.list[1..]
  {
    var r := q.list[0].r;
    EffectiveWants(q.nextOrdered, r.empty, PreFlush);
    EffectiveWants(q.nextOrdered, r.empty, BarRq);
    EffectiveWants(q.nextOrdered, r.empty, PostFlush);
    hide Effective, Supported, Skipped, FirstProxy;
  }

  /** Each of them is on the list iff it is wanted. */
  lemma StartHasWanted(q: Queue, p: Rq)
    requires Supported(q.nextOrdered) && q.list != [] && q.list[0].Pool? && !p.Pool? && p !in q.list
    ensures p in StartOrdered(q).q.list <==> Wants(q.nextOrdered, q.list[0].r.empty, p)
  {
    SequenceStarts(q);
    hide StartOrdered, Supported;
    assert forall x | x in q.list[1..] :: x in q.list;
  }

  /** The first wanted request is handed out at once, unless the queue still drains. */
  lemma StartHandsOut(q: Queue)
    requires Supported(q.nextOrdered) && q.list != [] && q.list[0].Pool? && q.list[0] !in q.started
    ensures var w := Wanted(q.nextOrdered, q.list[0].r.empty);
            StartOrdered(q).rq == if w == [] || (q.nextOrdered.byDrain && q.inFlight != 0) then None else Some(w[0])
  {
    hide CompleteSeq, Skipped;
    var w := Wanted(q.nextOrdered, q.list[0].r.empty);
    if q.nextOrdered.doPre { assert w[0] == PreFlush; } else if !q.list[0].r.empty { assert w[0] == BarRq; }
  }

  /** Ordering by tag, nothing but the next barrier waits for a sequence to end. */
  lemma OnlyBarriersWait(q: Queue)
    requires q.ordseq != {} && q.orig.Some? && q.ordered.byTag && q.list != []
    ensures DoOrdered(q) == Next(q, true, if PoolBarrier(q.list[0]) then None else Some(q.list[0]), None)
  {}

  // ----- the record of a run

  /** A record of completed requests is that of a whole sequence. */
  ghost predicate Whole(mode: Ordered, empty: bool, over: seq<Rq>) {
    NoDup(over) && forall p: Rq :: p in over <==> Wants(mode, empty, p)
  }

  /** While a sequence is in progress each wanted request is held or has completed, once. */
  ghost predicate Partly(s: State, empty: bool) {
    && NoDup(s.over) && (forall p | p in s.over :: !p.Pool?)
    && forall p: Rq | !p.Pool? ::
         (Held(s, p) || p in s.over <==> Wants(s.q.nextOrdered, empty, p)) && !(Held(s, p) && p in s.over)
  }

  ghost predicate Recorded(s: State) {
    && (s.q.ordseq == {} ==> s.over == [])
    && (s.q.ordseq != {} ==> s.q.orig.Some? && Partly(s, s.q.orig.value.empty))
    && (forall c | c in s.closed :: Whole(s.q.nextOrdered, c.r.empty, c.over))
  }

  /** The completed requests are in order, and come before those still held. */
  ghost predicate Ascending(over: seq<Rq>) {
    && (forall i | 0 <= i < |over| :: !over[i].Pool?)
    && (forall i, j | 0 <= i < j < |over| :: Rank(StageOf(over[i])) < Rank(StageOf(over[j])))
  }

  ghost predicate InStep(s: State) {
    && Ascending(s.over)
    && (forall p, x: Rq | p in s.over && !x.Pool? && Held(s, x) :: !p.Pool? && Rank(StageOf(p)) < Rank(StageOf(x)))
    && (forall c | c in s.closed :: Ascending(c.over))
  }

  /** Nothing changes for a step that leaves the embedded requests and the sequence alone. */
  lemma RecordedSame(s: State, t: State)
    requires Recorded(s) && t.over == s.over && t.closed == s.closed && t.q.nextOrdered == s.q.nextOrdered
    requires (t.q.ordseq == {}) == (s.q.ordseq == {}) && t.q.orig == s.q.orig
    requires forall p: Rq | !p.Pool? :: Held(t, p) <==> Held(s, p)
    ensures Recorded(t)
  {
    hide Whole, Wants, NoDup;
  }

  lemma InStepSame(s: State, t: State)
    requires InStep(s) && t.over == s.over && t.closed == s.closed
    requires forall p: Rq | !p.Pool? :: Held(t, p) ==> Held(s, p)
    ensures InStep(t)
  {
    hide Ascending, StageOf, Rank;
  }

  /** Ending stages: when the last is through nothing wanted is held any more. */
  lemma CompleteSeqRecorded(s: State, stages: set<Stage>, error: int)
    requires Ending(s, stages, error) && Recorded(s)
    ensures var (q', e) := CompleteSeq(s.q, stages, error); Recorded(Close(s.(q := q'), e))
  {
    var (q', e) := CompleteSeq(s.q, stages, error);
    var t := Close(s.(q := q'), e);
    var all := s.q.ordseq + stages;
    hide NoDup, Wants, Places, Flight, Supported, FirstError;
    if CurSeq(all) == Done {
      forall p: Rq | !p.Pool?
        ensures !Held(s, p)
      {
        assert StageOf(p) in all;
      }
      assert Whole(s.q.nextOrdered, s.q.orig.value.empty, s.over) by { WholeFromPartly(s); }
    } else {
      RecordedSame(s, t);
    }
  }

  lemma WholeFromPartly(s: State)
    requires s.q.orig.Some? && Partly(s, s.q.orig.value.empty) && forall p: Rq | !p.Pool? :: !Held(s, p)
    ensures Whole(s.q.nextOrdered, s.q.orig.value.empty, s.over)
  {
    hide NoDup, Held;
    forall p: Rq
      ensures p in s.over <==> Wants(s.q.nextOrdered, s.q.orig.value.empty, p)
    {
      if p.Pool? { assert p !in s.over; }
    }
  }

  lemma CompleteSeqInStep(s: State, stages: set<Stage>, error: int)
    requires InStep(s)
    ensures var (q', e) := CompleteSeq(s.q, stages, error); InStep(Close(s.(q := q'), e))
  {
    hide CurSeq, StageOf, Rank;
  }

  // ----- each action keeps the record

  ghost predicate Kept(s: State, t: State) {
    Recorded(s) ==> Recorded(t) && (InStep(s) ==> InStep(t))
  }

  lemma SameKept(s: State, t: State)
    requires t.over == s.over && t.closed == s.closed && t.q.nextOrdered == s.q.nextOrdered
    requires (t.q.ordseq == {}) == (s.q.ordseq == {}) && t.q.orig == s.q.orig
    requires forall p: Rq | !p.Pool? :: Held(t, p) <==> Held(s, p)
    ensures Kept(s, t)
  {
    hide Recorded, InStep, Held;
    if Recorded(s) { RecordedSame(s, t); }
    if InStep(s) { InStepSame(s, t); }
  }

  lemma InsertKept(s: State, t: State, p: nat, r: Req)
    requires p <= |s.q.list| && t.q.list == InsertAt(s.q.list, p, Pool(r)) && t.driver == s.driver
    requires t.over == s.over && t.closed == s.closed && t.q.nextOrdered == s.q.nextOrdered
    requires t.q.ordseq == s.q.ordseq && t.q.orig == s.q.orig
    ensures Kept(s, t)
  {
    InsertAtIs(s.q.list, p, Pool(r));
    hide InsertAt;
    forall x: Rq | !x.Pool?
      ensures Held(t, x) <==> Held(s, x)
    {
      if x in t.q.list { var j :| 0 <= j < |t.q.list| && t.q.list[j] == x; }
      if x in s.q.list {
        var j :| 0 <= j < |s.q.list| && s.q.list[j] == x;
        assert t.q.list[if j < p then j else j + 1] == x;
      }
    }
    SameKept(s, t);
  }

  lemma EnterKept(s: State, r: Req)
    ensures Kept(s, AddSorted(s, r)) && Kept(s, AddBack(s, r)) && Kept(s, AddFront(s, r))
  {
    SameKept(s, AddSorted(s, r));
    assert AddBack(s, r).q.list == InsertAt(s.q.list, |s.q.list|, Pool(r));
    InsertKept(s, AddBack(s, r), |s.q.list|, r);
    assert AddFront(s, r).q.list == InsertAt(s.q.list, 0, Pool(r));
    InsertKept(s, AddFront(s, r), 0, r);
    hide Kept;
  }

  lemma DrainCheckKept(s: State)
    requires Base(s)
    ensures var (q', e) := DrainCheck(s.q); Kept(s, Close(s.(q := q'), e))
  {
    if DrainCheck(s.q) != (s.q, None) {
      assert Ending(s, {Drain}, 0);
      if Recorded(s) { CompleteSeqRecorded(s, {Drain}, 0); }
      if InStep(s) { CompleteSeqInStep(s, {Drain}, 0); }
      hide Recorded, InStep, Ending, CompleteSeq, Base;
    } else {
      assert Close(s.(q := s.q), None) == s;
    }
  }

  lemma PutKept(s: State, r: Req, into: Req)
    requires Base(s) && Enabled(s, PutMerged(r, into))
    ensures Known(s) && Kept(s, PutAway(s, r, into))
  {
    var t := Absorbed(s, r, into);
    assert Base(t) && !Accounted(s.q, Pool(r));
    DrainCheckKept(t);
    SameKept(s, t);
    hide Base, DrainCheck, Recorded, InStep;
  }

  lemma CompletePoolKept(s: State, r: Req, error: int)
    requires Base(s) && Enabled(s, Complete(Pool(r), error))
    ensures Known(s) && Kept(s, CompleteOne(s, Pool(r), error))
  {
    ReleasedBase(s, r);
    var t := Released(s, r);
    DrainCheckKept(t);
    SameKept(s, t);
    hide DrainCheck, Recorded, InStep;
  }

  /** The request of a stage that completes goes on record. */
  lemma ReportedRecorded(s: State, p: Rq, error: int)
    requires Base(s) && !p.Pool? && p in s.driver && Recorded(s)
    ensures Recorded(Reported(s, p, error))
  {
    CompleteProxyIs(s, p, error);
    var t := Reported(s, p, error);
    hide CompleteOne, CompleteSeq, CurSeq, Reported, Wants, Whole, Supported, FirstError, Flight, StageOf;
    assert t.over == s.over + [p] && t.driver == s.driver - {p} && t.q.list == s.q.list && p !in s.q.list;
    assert p !in s.over by { assert Held(s, p); }
    NoDupSnoc(s.over, p);
    hide NoDup;
    forall x: Rq | !x.Pool?
      ensures Held(t, x) <==> Held(s, x) && x != p
      ensures x in t.over <==> x in s.over || x == p
    {
    }
  }

  lemma NoDupSnoc(s: seq<Rq>, x: Rq)
    requires NoDup(s) && x !in s
    ensures NoDup(s + [x])
  {
    assert forall i | 0 <= i < |s| :: s[i] in s;
  }

  /** Ordering by draining, it is the first of those held. */
  lemma ReportedInStep(s: State, p: Rq, error: int)
    requires Base(s) && Order(s) && !p.Pool? && p in s.driver && InStep(s)
    ensures InStep(Reported(s, p, error))
  {
    CompleteProxyIs(s, p, error);
    var t := Reported(s, p, error);
    hide CompleteOne, CompleteSeq, CurSeq, Reported, Supported, FirstError, Flight, Errors;
    assert t.over == s.over + [p] && t.driver == s.driver - {p} && t.q.list == s.q.list && t.closed == s.closed;
    forall x: Rq | !x.Pool? && Held(t, x)
      ensures Held(s, x) && Rank(StageOf(p)) < Rank(StageOf(x))
    {
      assert Out(s, p) && Held(s, x);
      assert StageOf(x) !in s.q.ordseq && x != p by { assert p !in s.q.list; }
      StagesDiffer(p, x);
    }
    AscendingSnoc(s.over, p);
  }

  lemma StagesDiffer(p: Rq, x: Rq)
    requires !p.Pool? && !x.Pool? && p != x
    ensures Rank(StageOf(p)) != Rank(StageOf(x))
  {}

  lemma AscendingSnoc(over: seq<Rq>, p: Rq)
    requires Ascending(over) && !p.Pool? && forall x | x in over :: !x.Pool? && Rank(StageOf(x)) < Rank(StageOf(p))
    ensures Ascending(over + [p])
  {
    assert forall i | 0 <= i < |over| :: over[i] in over;
    hide StageOf, Rank;
  }

  lemma CompleteProxyKept(s: State, p: Rq, error: int)
    requires Base(s) && !p.Pool? && Enabled(s, Complete(p, error)) && (s.q.nextOrdered.byDrain ==> Order(s))
    ensures Known(s)
    ensures Recorded(s) ==> Recorded(CompleteOne(s, p, error))
    ensures s.q.nextOrdered.byDrain && InStep(s) ==> InStep(CompleteOne(s, p, error))
  {
    CompleteProxyIs(s, p, error);
    ReportedEnding(s, p, error);
    var t := Reported(s, p, error);
    if Recorded(s) {
      ReportedRecorded(s, p, error);
      CompleteSeqRecorded(t, {StageOf(p)}, error);
    }
    if s.q.nextOrdered.byDrain && InStep(s) {
      ReportedInStep(s, p, error);
      CompleteSeqInStep(t, {StageOf(p)}, error);
    }
    hide CompleteOne, Reported, CompleteSeq, Ending, Base, Order, Recorded, InStep;
  }

  lemma PeekHeadKept(s: State)
    requires Base(s) && Waits(s) && s.q.list != [] && (s.q.ordseq == {} ==> !PoolBarrier(s.q.list[0]))
    ensures Known(s) && Kept(s, PeekNext(s))
  {
    PeekHead(s);
    hide DoOrdered, Waits;
    SameKept(s, PeekNext(s));
  }

  /** A new sequence has just the wanted requests, and nothing on record. */
  lemma StackedRecorded(s: State)
    requires Base(s) && Recorded(s) && s.q.ordseq == {} && s.q.list != [] && PoolBarrier(s.q.list[0])
    ensures Recorded(Stacked(s)) && Stacked(s).over == [] && Stacked(s).closed == s.closed
  {
    BarrierAtHead(s);
    StackedIs(s);
    StackedWanted(s);
    hide Base, Stacked, Effective, Proxies, ProxySet, Whole, Wants, Held;
  }

  lemma StackedWanted(s: State)
    requires Base(s) && s.q.ordseq == {} && s.q.list != [] && PoolBarrier(s.q.list[0])
    ensures forall p: Rq | !p.Pool? :: Held(Stacked(s), p) <==> Wants(s.q.nextOrdered, s.q.list[0].r.empty, p)
  {
    IdleDriver(s);
    BarrierAtHead(s);
    StackedMembers(s);
    hide Base, Stacked, Effective, Supported, Wants;
    forall p: Rq | !p.Pool?
      ensures Held(Stacked(s), p) <==> Wants(s.q.nextOrdered, s.q.list[0].r.empty, p)
    {
      EffectiveWants(s.q.nextOrdered, s.q.list[0].r.empty, p);
    }
  }

  lemma IdleDriver(s: State)
    requires Base(s) && s.q.ordseq == {} && s.q.list != [] && PoolBarrier(s.q.list[0])
    ensures Supported(s.q.nextOrdered) && Stacked(s).driver == s.driver && forall p: Rq | !p.Pool? :: p !in s.driver
  {
    hide Effective, Supported, PushAll;
  }

  lemma PeekBarrierKept(s: State)
    requires Base(s) && Recorded(s) && s.q.ordseq == {} && s.q.list != [] && PoolBarrier(s.q.list[0])
    ensures Known(s) && Recorded(PeekNext(s)) && (InStep(s) ==> InStep(PeekNext(s)))
  {
    assert Known(s);
    hide PeekNext, Stacked, CompleteSeq, SkipSet, Ending, Base, Recorded, InStep;
    BegunKept(s);
    assert Stages(s) by { StagesOf(s); }
    PeekBarrierIs(s);
    hide Begun, Marked;
    MarkedKept(Begun(s), AtOnce(Stacked(s)));
  }

  lemma StagesOf(s: State)
    requires Base(s)
    ensures Stages(s)
  {}

  lemma BegunKept(s: State)
    requires Base(s) && Recorded(s) && s.q.ordseq == {} && s.q.list != [] && PoolBarrier(s.q.list[0])
    ensures Recorded(Begun(s)) && (InStep(s) ==> InStep(Begun(s)))
  {
    var t := Stacked(s);
    hide Stacked, CompleteSeq, SkipSet, Ending, Base, Recorded, InStep;
    StackedEnding(s);
    StackedRecorded(s);
    CompleteSeqRecorded(t, SkipSet(t.q), 0);
    if InStep(s) {
      NothingOver(s, t);
      CompleteSeqInStep(t, SkipSet(t.q), 0);
    }
  }

  lemma NothingOver(s: State, t: State)
    requires InStep(s) && t.over == [] && t.closed == s.closed
    ensures InStep(t)
  {}

  lemma MarkedKept(s: State, rq: Option<Rq>)
    ensures Kept(s, Marked(s, rq))
  {
    SameKept(s, Marked(s, rq));
  }

  lemma StartKept(s: State, rq: Rq)
    requires Base(s) && Enabled(s, Start(rq))
    ensures Kept(s, StartOne(s, rq))
  {
    StartPlaces(s, rq);
    hide Without, Places;
    SameKept(s, StartOne(s, rq));
  }

  lemma ReinsertKept(s: State, rq: Rq)
    requires Base(s) && rq in s.driver
    ensures Known(s) && Kept(s, PutBack(s, rq))
  {
    var p := PutBackIs(s, rq);
    InsertAtMembers(s.q.list, p, rq);
    hide InsertAt, PutBack, Requeue;
    SameKept(s, Returned(s, rq, p));
  }

  lemma DispatchKept(s: State, r: Req, p: nat)
    requires Enabled(s, Dispatch(r, p))
    ensures Kept(s, MoveToList(s, r, p))
  {
    InsertKept(s, MoveToList(s, r, p), p, r);
  }

  lemma BarErrorKept(s: State, error: int)
    ensures Kept(s, NoteBarError(s, error))
  {
    SameKept(s, NoteBarError(s, error));
  }

  // ----- the record of a whole sequence

  /** Three stages in ascending order and each at most once leave one order. */
  lemma WantedInOrder(mode: Ordered, empty: bool, over: seq<Rq>)
    requires Whole(mode, empty, over) && Ascending(over)
    ensures over == Wanted(mode, empty)
  {
    var w := Wanted(mode, empty);
    WantedWhole(mode, empty);
    hide Wants, Wanted;
    SameOrder(over, w);
  }

  lemma WantedWhole(mode: Ordered, empty: bool)
    ensures Whole(mode, empty, Wanted(mode, empty)) && Ascending(Wanted(mode, empty))
  {
    var w := Wanted(mode, empty);
    forall p: Rq
      ensures p in w <==> Wants(mode, empty, p)
    {
      if mode.doPre { assert w[0] == PreFlush; }
      if !empty { assert w[if mode.doPre then 1 else 0] == BarRq; }
      if mode.doPost && !empty { assert w[|w| - 1] == PostFlush; }
    }
  }

  /** Two ascending records of the same requests are the same. */
  lemma {:induction false} SameOrder(a: seq<Rq>, b: seq<Rq>)
    requires Ascending(a) && Ascending(b) && forall p: Rq :: p in a <==> p in b
    ensures a == b
  {
    if a == [] {
      assert forall i | 0 <= i < |b| :: b[i] in b;
    } else {
      assert a[0] in a;
      var k :| 0 <= k < |b| && b[k] == a[0];
      assert b[0] in b;
      var j :| 0 <= j < |a| && a[j] == b[0];
      assert k == 0;
      TailOf(a); TailOf(b);
      hide StageOf, Rank;
      SameOrder(a[1..], b[1..]);
      assert a == [a[0]] + a[1..] && b == [b[0]] + b[1..];
    }
  }

  lemma TailOf(a: seq<Rq>)
    requires Ascending(a) && a != []
    ensures Ascending(a[1..]) && forall p: Rq :: p in a[1..] <==> p in a && p != a[0]
  {
    assert a == [a[0]] + a[1..];
    assert forall i | 0 <= i < |a[1..]| :: a[1..][i] == a[i + 1];
  }
}
