/** The same operations as the source runs them: methods that change a queue in place. */
module BarrierDevice {
  import opened Options
  import opened Lists
  import opened BarrierQueue

  /** What __elv_next_request answers from the dispatch list alone: it looks at the head until
      something is returned or the list is empty. */
  function NextRequest(q: Queue): (n: (Queue, Option<Rq>, seq<Ended>))
    requires q.ordseq != {} ==> q.orig.Some?
    decreases |q.list|
  {
    if q.list == [] then (q, None, [])
    else
      var n := DoOrdered(q);
      if n.returned then (n.q, n.rq, if n.ended.Some? then [n.ended.value] else [])
      else
        GoneShrinks(q);
        var (q', rq, es) := NextRequest(n.q);
        (q', rq, (if n.ended.Some? then [n.ended.value] else []) + es)
  }

  /** A request that is gone has left the list, and no sequence is running then. */
  lemma GoneShrinks(q: Queue)
    requires q.list != [] && (q.ordseq != {} ==> q.orig.Some?)
    ensures var n := DoOrdered(q); !n.returned ==> |n.q.list| < |q.list| && n.q.ordseq == {}
  {
    if !DoOrdered(q).returned && q.nextOrdered != OrderedNone {
      var o := Effective(q.nextOrdered, q.list[0].r.empty);
      assert DoOrdered(q) == StartOrdered(q);
      StartedWhole(q);
    }
  }

  /** A sequence ends at once only if it has no request of its own. */
  lemma StartedWhole(q: Queue)
    requires q.list != [] && q.list[0].Pool? && q.ordseq == {}
    ensures !StartOrdered(q).returned ==> StartOrdered(q).q.list == q.list[1..]
  {
    var o := Effective(q.nextOrdered, q.list[0].r.empty);
    hide Effective;
    if !StartOrdered(q).returned {
      assert !o.doPre && !o.doBar && !o.doPost;
    }
  }

  /** A queue that supports no order refuses the barriers in front of the first other request, each with
      -EOPNOTSUPP, and answers with that request. */
  lemma {:induction false} RefusesBarriers(q: Queue, k: nat)
    requires q.nextOrdered == OrderedNone && q.ordseq == {} && forall rq | rq in q.list :: rq.Pool?
    requires k <= |q.list| && (forall i | 0 <= i < k :: IsBarrier(q.list[i])) && (k < |q.list| ==> !IsBarrier(q.list[k]))
    ensures var (q', rq, es) := NextRequest(q);
            && q'.list == q.list[k..] && q'.ordseq == {} && !(q'.bug && !q.bug)
            && rq == (if k < |q.list| then Some(q.list[k]) else None)
            && |es| == k && forall i | 0 <= i < k :: es[i] == Ended(q.list[i].r, -95)
    decreases k
  {
    if k > 0 {
      assert q.list[0] in q.list;
      var n := DoOrdered(q);
      assert n.q.list == q.list[1..] && forall rq | rq in q.list[1..] :: rq in q.list;
      RefusesBarriers(n.q, k - 1);
      assert q.list[1..][k - 1..] == q.list[k..];
    } else if q.list != [] {
      assert q.list[0] in q.list;
    }
  }

  function PushOne(q: Queue, p: Rq): Queue {
    q.(started := q.started - {p}, soft := q.soft + {p}, list := [p] + q.list)
  }

  function PushIf(q: Queue, p: Rq, doIt: bool): Queue { if doIt then PushOne(q, p) else q }

  /** Stacked in reverse, the requests end up in order. */
  lemma PushedInOrder(q: Queue, o: Ordered)
    ensures PushAll(q, o) == PushIf(PushIf(PushIf(q, PostFlush, o.doPost), BarRq, o.doBar), PreFlush, o.doPre)
    ensures PushAll(q, o).ordered == q.ordered && PushAll(q, o).inFlight == q.inFlight
  {
    var q' := PushIf(PushIf(PushIf(q, PostFlush, o.doPost), BarRq, o.doBar), PreFlush, o.doPre);
    assert q'.list == PushAll(q, o).list;
    assert q'.started == PushAll(q, o).started;
    assert q'.soft == PushAll(q, o).soft;
  }

  /** The queue once start_ordered has stashed away the original request. */
  function Stashed(q: Queue): Queue
    requires q.list != [] && q.list[0].Pool?
  {
    var r := q.list[0].r;
    DequeueHead(q.(orderr := 0, ordered := Effective(q.nextOrdered, r.empty),
                   ordseq := q.ordseq + {Started})).(orig := Some(r))
  }

  /** Requeueing is taking back the start, and then an insertion. */
  lemma RequeueIs(q: Queue, q1: Queue, rq: Rq)
    requires q.ordseq != {} ==> q.orig.Some?
    requires q1 == q.(inFlight := if Accounted(q, rq) then q.inFlight - 1 else q.inFlight,
                      started := q.started - {rq}, soft := q.soft + {rq})
    ensures Requeue(q, rq) == q1.(list := InsertAt(q1.list, if q.ordseq == {} then 0 else RequeuePos(q1, rq, 0), rq))
  {
    hide RequeuePos, InsertAt;
  }

  class RequestQueue {
    var ordseq: set<Stage>
    var orderr: int
    var ordered: Ordered
    const nextOrdered: Ordered
    var origBar: Option<Req>
    var ordcolor: bool
    var queueHead: seq<Rq>
    var inFlight: int
    var started: set<Rq>
    var soft: set<Rq>
    ghost var bug: bool

    ghost function View(): Queue
      reads this
    {
      Queue(ordseq, orderr, ordered, nextOrdered, origBar, ordcolor, queueHead, inFlight, started, soft, bug)
    }

    ghost predicate Known()
      reads this
    {
      ordseq != {} ==> origBar.Some?
    }

    constructor (mode: Ordered)
      ensures View() == Queue({}, 0, OrderedNone, mode, None, false, [], 0, {}, {}, false)
    {
      ordseq, orderr, ordered, nextOrdered := {}, 0, OrderedNone, mode;
      origBar, ordcolor, queueHead, inFlight := None, false, [], 0;
      started, soft, bug := {}, {}, false;
    }

    /** blk_ordered_cur_seq: no stage while no sequence is in progress, else the first one that is
        not through. */
    method OrderedCurSeq() returns (cur: Option<Stage>)
      ensures cur.None? <==> ordseq == {}
      ensures cur.Some? ==> cur.value == CurSeq(ordseq) && (cur.value in ordseq ==> cur.value == Done)
      ensures cur.Some? ==> forall t: Stage | Rank(t) < Rank(cur.value) :: t in ordseq
    {
      if ordseq == {} { return None; }
      var s := Started;
      while s in ordseq && s != Done
        invariant forall t: Stage | Rank(t) < Rank(s) :: t in ordseq
        decreases 5 - Rank(s)
      {
        s := match s case Started => Drain case Drain => Pre case Pre => Bar case Bar => Post case _ => Done;
      }
      return Some(s);
    }

    /** blk_ordered_complete_seq; the result tells whether the sequence is over. */
    method OrderedCompleteSeq(stages: set<Stage>, error: int) returns (over: bool, ended: Option<Ended>)
      modifies this
      ensures (View(), ended) == old(CompleteSeq(View(), stages, error))
      ensures ended.Some? ==> over
    {
      if error != 0 && orderr == 0 { orderr := error; }
      bug := bug || ordseq * stages != {};
      ordseq := ordseq + stages;
      var cur := OrderedCurSeq();
      if cur != Some(Done) { return false, None; }
      over := true;
      ordseq := {};
      if origBar.None? {
        bug := true;
        return true, None;
      }
      ended := Some(Ended(origBar.value, orderr));
      origBar := None;
    }

    /** elv_insert of a request embedded in the queue at the front. */
    method PushFront(p: Rq)
      modifies this
      ensures View() == old(PushOne(View(), p))
    {
      started := started - {p};
      soft := soft + {p};
      queueHead := [p] + queueHead;
    }

    /** The middle of start_ordered: the requests are stacked at the head, so in reverse order. */
    method StackProxies() returns (rq: Option<Rq>, skip: set<Stage>)
      modifies this
      ensures View() == old(PushAll(View(), ordered)) && ordered == old(ordered) && inFlight == old(inFlight)
      ensures rq == FirstProxy(ordered) && skip == Skipped(ordered)
    {
      PushedInOrder(View(), ordered);
      hide PushAll;
      rq, skip := None, {};
      if ordered.doPost { PushFront(PostFlush); rq := Some(PostFlush); } else { skip := skip + {Post}; }
      if ordered.doBar { PushFront(BarRq); rq := Some(BarRq); } else { skip := skip + {Bar}; }
      if ordered.doPre { PushFront(PreFlush); rq := Some(PreFlush); } else { skip := skip + {Pre}; }
    }

    /** The beginning of start_ordered. */
    method StashOriginal()
      requires queueHead != [] && queueHead[0].Pool?
      modifies this
      ensures View() == old(Stashed(View()))
    {
      var r := queueHead[0].r;
      var mode := nextOrdered;
      if r.empty {
        mode := mode.(doBar := false, doPost := false);
        if mode.byTag && !mode.doPre {
          mode := mode.(byTag := false, byDrain := true);
        }
      }
      assert mode == Effective(nextOrdered, r.empty);
      hide Effective;
      orderr, ordered, ordseq := 0, mode, ordseq + {Started};
      if Pool(r) in started && r.fs { inFlight := inFlight + 1; }
      queueHead := queueHead[1..];
      origBar := Some(r);
    }

    /** start_ordered */
    method StartOrderedSequence() returns (returned: bool, rq: Option<Rq>, ended: Option<Ended>)
      requires queueHead != [] && queueHead[0].Pool? && Known()
      modifies this
      ensures Next(View(), returned, rq, ended) == old(StartOrdered(View()))
    {
      hide PushAll, FirstProxy, Skipped, CompleteSeq, Effective;
      StashOriginal();
      var skip;
      rq, skip := StackProxies();
      if ordered.byDrain && inFlight != 0 { rq := None; } else { skip := skip + {Drain}; }
      assert skip == Skipped(ordered) + if ordered.byDrain && inFlight != 0 then {} else {Drain};
      var over;
      over, ended := OrderedCompleteSeq(skip, 0);
      returned := ordseq != {};
    }

    /** blk_do_ordered for the request at the head. */
    method DoOrderedHead() returns (returned: bool, rq: Option<Rq>, ended: Option<Ended>, warned: bool)
      requires queueHead != [] && Known()
      modifies this
      ensures Next(View(), returned, rq, ended) == old(DoOrdered(View()))
      ensures warned == old(Late(View()))
    {
      var head := queueHead[0];
      ended, warned := None, false;
      if ordseq == {} {
        if !IsBarrier(head) { return true, Some(head), None, false; }
        if !head.Pool? {
          bug := true;
          return true, None, None, false;
        }
        if nextOrdered != OrderedNone {
          returned, rq, ended := StartOrderedSequence();
          return;
        }
        if head in started && IsFs(head) { inFlight := inFlight + 1; }
        queueHead := queueHead[1..];
        return false, None, Some(Ended(head.r, -EOPNOTSUPP)), false;
      }
      returned, rq := true, Some(head);
      if !IsStaged(head) { return; }
      if ordered.byTag {
        if IsBarrier(head) && head != BarRq { rq := None; }
      } else {
        var cur := OrderedCurSeq();
        warned := Rank(ReqSeqOf(head)) < Rank(cur.value);
        if Rank(ReqSeqOf(head)) > Rank(cur.value) { rq := None; }
      }
    }

    /** blk_ordered_req_seq */
    function ReqSeqOf(rq: Rq): (s: Stage)
      requires ordseq != {} && origBar.Some?
      reads this
      ensures s == ReqSeq(View(), rq)
    {
      match rq
      case PreFlush => Pre
      case BarRq => Bar
      case PostFlush => Post
      case Pool(r) => if !r.fs || r.color == origBar.value.color then Drain else Done
    }

    /** The inner loop of __elv_next_request. */
    method NextRequestFromList() returns (rq: Option<Rq>, ended: seq<Ended>)
      requires Known()
      modifies this
      ensures (View(), rq, ended) == old(NextRequest(View()))
    {
      hide DoOrdered;
      ended := [];
      ghost var goal := NextRequest(View());
      assert [] + goal.2 == goal.2;
      while queueHead != []
        invariant Known()
        invariant var n := NextRequest(View()); goal == (n.0, n.1, ended + n.2)
        decreases |queueHead|
      {
        ghost var q, n, was := View(), NextRequest(View()), ended;
        GoneShrinks(q);
        var returned, r, e, _ := DoOrderedHead();
        if e.Some? { ended := ended + [e.value]; }
        if returned {
          assert was + n.2 == ended;
          return r, ended;
        }
        ghost var n' := NextRequest(View());
        assert was + n.2 == ended + n'.2;
      }
      assert ended + [] == ended;
      return None, ended;
    }

    /** elv_requeue_request: elv_insert walks the list to the request's place. */
    method RequeueRequest(rq: Rq)
      requires Known()
      modifies this
      ensures View() == old(Requeue(View(), rq))
    {
      hide Requeue, RequeuePos, InsertAt;
      ghost var was := View();
      if rq in started && IsFs(rq) { inFlight := inFlight - 1; }
      started := started - {rq};
      soft := soft + {rq};
      RequeueIs(was, View(), rq);
      if ordseq == {} {
        InsertAtDef(queueHead, 0, rq);
        queueHead := [rq] + queueHead;
        return;
      }
      var pos := FindPlace(rq);
      InsertAtDef(queueHead, pos, rq);
      queueHead := queueHead[..pos] + [rq] + queueHead[pos..];
    }

    /** The walk of elv_insert through the list. */
    method FindPlace(rq: Rq) returns (pos: nat)
      requires ordseq != {} && origBar.Some?
      ensures pos == RequeuePos(View(), rq, 0)
    {
      hide ReqSeq, Rank;
      pos := 0;
      while pos < |queueHead| && Rank(ReqSeqOf(rq)) > Rank(ReqSeqOf(queueHead[pos]))
        invariant pos <= |queueHead|
        invariant RequeuePos(View(), rq, 0) == RequeuePos(View(), rq, pos)
      {
        pos := pos + 1;
      }
    }

    /** elv_completed_request */
    method CompletedOne(rq: Rq) returns (ended: Option<Ended>)
      requires Known()
      modifies this
      ensures (View(), ended) == old(CompletedRequest(View(), rq))
    {
      if rq in started && IsFs(rq) { inFlight := inFlight - 1; }
      ended := None;
      if ordseq != {} {
        var cur := OrderedCurSeq();
        if inFlight == 0 && cur == Some(Drain) && (queueHead == [] || Rank(ReqSeqOf(queueHead[0])) > Rank(Drain)) {
          var over;
          over, ended := OrderedCompleteSeq({Drain}, 0);
        }
      }
    }
  }
}
