/** The ordered sequence of a barrier request: block/blk-barrier.c, with the parts of
    block/elevator.c and block/blk.h that drive it, on the fields of a request queue. */
module BarrierQueue {
  import opened Options
  import opened Lists

  /** A request from the pool. `color` is REQ_ORDERED_COLOR. `epoch` counts the barriers that
      were inserted before it; no operation reads it, the proofs do. */
  datatype Req = Req(id: nat, fs: bool, barrier: bool, empty: bool, color: bool, epoch: nat)

  /** What can stand on the dispatch list: pool requests and the three requests embedded in
      the queue. prepare_flush_fn makes the flushes something other than fs requests. */
  datatype Rq = Pool(r: Req) | PreFlush | BarRq | PostFlush

  predicate IsFs(rq: Rq) { match rq case Pool(r) => r.fs case BarRq => true case _ => false }

  predicate IsBarrier(rq: Rq) { match rq case Pool(r) => r.fs && r.barrier case BarRq => true case _ => false }

  /** The bits of ordseq in ascending order; DONE is the first bit that never gets set. */
  datatype Stage = Started | Drain | Pre | Bar | Post | Done

  function Rank(s: Stage): nat {
    match s case Started => 0 case Drain => 1 case Pre => 2 case Bar => 3 case Post => 4 case Done => 5
  }

  /** QUEUE_ORDERED_* as its bits. */
  datatype Ordered = Ordered(byDrain: bool, byTag: bool, doPre: bool, doBar: bool, doPost: bool, doFua: bool)

  const OrderedNone := Ordered(false, false, false, false, false, false)

  /** The modes blk_queue_ordered accepts besides NONE. */
  predicate Supported(o: Ordered) {
    o.doBar && (o.byDrain != o.byTag) && (o.doPost ==> o.doPre && !o.doFua) && (o.doFua ==> o.doPre)
    && (o.doPre ==> o.doPost || o.doFua)
  }

  /** The fields of struct request_queue the protocol touches. `started` and `soft` hold the
      requests with REQ_STARTED and REQ_SOFTBARRIER; `bug` records that a BUG_ON fired. */
  datatype Queue = Queue(ordseq: set<Stage>, orderr: int, ordered: Ordered, nextOrdered: Ordered,
                         orig: Option<Req>, ordcolor: bool, list: seq<Rq>, inFlight: int,
                         started: set<Rq>, soft: set<Rq>, bug: bool)

  /** An original request that was ended, with its error. */
  datatype Ended = Ended(r: Req, error: int)

  // ----- reading the state

  /** The lowest bit not yet set, which is what blk_ordered_cur_seq returns for a sequence in
      progress. */
  function CurSeq(ordseq: set<Stage>): Stage {
    if Started !in ordseq then Started
    else if Drain !in ordseq then Drain
    else if Pre !in ordseq then Pre
    else if Bar !in ordseq then Bar
    else if Post !in ordseq then Post
    else Done
  }

  /** blk_ordered_req_seq */
  function ReqSeq(q: Queue, rq: Rq): Stage
    requires q.ordseq != {} && q.orig.Some?
  {
    match rq
    case PreFlush => Pre
    case BarRq => Bar
    case PostFlush => Post
    case Pool(r) => if !r.fs || r.color == q.orig.value.color then Drain else Done
  }

  /** blk_account_rq */
  predicate Accounted(q: Queue, rq: Rq) { rq in q.started && IsFs(rq) }

  // ----- the sequence

  /** blk_ordered_complete_seq: note an error, set the bits, and end the original request when
      every stage is through. */
  function CompleteSeq(q: Queue, stages: set<Stage>, error: int): (n: (Queue, Option<Ended>))
    ensures n.0.nextOrdered == q.nextOrdered && n.0.list == q.list
  {
    var orderr := if error != 0 && q.orderr == 0 then error else q.orderr;
    var q1 := q.(orderr := orderr, ordseq := q.ordseq + stages, bug := q.bug || q.ordseq * stages != {});
    if CurSeq(q1.ordseq) != Done then (q1, None)
    else if q1.orig.None? then (q1.(ordseq := {}, bug := true), None)
    else (q1.(ordseq := {}, orig := None), Some(Ended(q1.orig.value, orderr)))
  }

  /** blk_dequeue_request on the head of the list. */
  function DequeueHead(q: Queue): Queue
    requires q.list != []
  {
    q.(list := q.list[1..], inFlight := if Accounted(q, q.list[0]) then q.inFlight + 1 else q.inFlight)
  }

  /** What start_ordered makes of the mode: an empty barrier has no barrier request and needs
      no flush after it, and without any command left it cannot be ordered by tag. */
  function Effective(o: Ordered, empty: bool): Ordered {
    if !empty then o
    else
      var o1 := o.(doBar := false, doPost := false);
      if o1.byTag && !o1.doPre then o1.(byTag := false, byDrain := true) else o1
  }

  /** The stages that a sequence in this mode does without, the drain aside. */
  function Skipped(o: Ordered): set<Stage> {
    (if o.doPost then {} else {Post}) + (if o.doBar then {} else {Bar}) + (if o.doPre then {} else {Pre})
  }

  /** The embedded requests of a sequence, in list order. */
  function Proxies(o: Ordered): seq<Rq> {
    (if o.doPre then [PreFlush] else []) + (if o.doBar then [BarRq] else []) + (if o.doPost then [PostFlush] else [])
  }

  function ProxySet(o: Ordered): set<Rq> {
    (if o.doPre then {PreFlush} else {}) + (if o.doBar then {BarRq} else {}) + (if o.doPost then {PostFlush} else {})
  }

  /** blk_rq_init and elv_insert at the front for each of them. */
  function PushAll(q: Queue, o: Ordered): Queue {
    q.(list := Proxies(o) + q.list, started := q.started - ProxySet(o), soft := q.soft + ProxySet(o))
  }

  function FirstProxy(o: Ordered): Option<Rq> {
    if o.doPre then Some(PreFlush) else if o.doBar then Some(BarRq) else if o.doPost then Some(PostFlush) else None
  }

  datatype Next = Next(q: Queue, returned: bool, rq: Option<Rq>, ended: Option<Ended>)

  /** start_ordered for the barrier at the head of the list. */
  function StartOrdered(q: Queue): (n: Next)
    requires q.list != [] && q.list[0].Pool?
    ensures n.q.nextOrdered == q.nextOrdered
  {
    var r := q.list[0].r;
    var o := Effective(q.nextOrdered, r.empty);
    var q1 := DequeueHead(q.(orderr := 0, ordered := o, ordseq := q.ordseq + {Started})).(orig := Some(r));
    var q2 := PushAll(q1, o);
    var wait := o.byDrain && q2.inFlight != 0;
    var skip := Skipped(o) + if wait then {} else {Drain};
    var (q3, ended) := CompleteSeq(q2, skip, 0);
    Next(q3, q3.ordseq != {}, if wait then None else FirstProxy(o), ended)
  }

  const EOPNOTSUPP := 95

  /** Requests that have to wait for their turn. */
  predicate IsStaged(rq: Rq) { IsFs(rq) || rq == PreFlush || rq == PostFlush }

  /** The condition of the WARN_ON in blk_do_ordered: the head belongs to a stage that is over. */
  predicate Late(q: Queue)
    requires q.ordseq != {} ==> q.orig.Some?
  {
    && q.ordseq != {} && q.list != [] && IsStaged(q.list[0])
    && !q.ordered.byTag && Rank(ReqSeq(q, q.list[0])) < Rank(CurSeq(q.ordseq))
  }

  /** blk_do_ordered for the head of the list. */
  function DoOrdered(q: Queue): (n: Next)
    requires q.list != []
    requires q.ordseq != {} ==> q.orig.Some?
    ensures n.q.nextOrdered == q.nextOrdered
  {
    var rq := q.list[0];
    if q.ordseq == {} then
      if !IsBarrier(rq) then Next(q, true, Some(rq), None)
      else if !rq.Pool? then Next(q.(bug := true), true, None, None)  // a sequence inside a sequence
      else if q.nextOrdered != OrderedNone then StartOrdered(q)
      else Next(DequeueHead(q), false, None, Some(Ended(rq.r, -EOPNOTSUPP)))
    else if !IsStaged(rq) then Next(q, true, Some(rq), None)
    else if q.ordered.byTag then
      Next(q, true, if IsBarrier(rq) && rq != BarRq then None else Some(rq), None)
    else
      Next(q, true, if Rank(ReqSeq(q, rq)) > Rank(CurSeq(q.ordseq)) then None else Some(rq), None)
  }

  // ----- the elevator core around it

  /** elv_insert with ELEVATOR_INSERT_REQUEUE: where the request goes. */
  function RequeuePos(q: Queue, rq: Rq, i: nat): (p: nat)
    requires q.ordseq != {} && q.orig.Some? && i <= |q.list|
    ensures i <= p <= |q.list|
    decreases |q.list| - i
  {
    if i == |q.list| || Rank(ReqSeq(q, rq)) <= Rank(ReqSeq(q, q.list[i])) then i else RequeuePos(q, rq, i + 1)
  }

  /** It is the first place in front of nothing that may go before it. */
  lemma {:induction false} RequeuePosIs(q: Queue, rq: Rq, i: nat)
    requires q.ordseq != {} && q.orig.Some? && i <= |q.list|
    ensures var p := RequeuePos(q, rq, i);
            && (forall j | i <= j < p :: Rank(ReqSeq(q, rq)) > Rank(ReqSeq(q, q.list[j])))
            && (p < |q.list| ==> Rank(ReqSeq(q, rq)) <= Rank(ReqSeq(q, q.list[p])))
    decreases |q.list| - i
  {
    hide ReqSeq, Rank;
    if i < |q.list| && Rank(ReqSeq(q, rq)) > Rank(ReqSeq(q, q.list[i])) {
      RequeuePosIs(q, rq, i + 1);
    }
  }

  /** elv_requeue_request */
  function Requeue(q: Queue, rq: Rq): Queue
    requires q.ordseq != {} ==> q.orig.Some?
  {
    var q1 := q.(inFlight := if Accounted(q, rq) then q.inFlight - 1 else q.inFlight,
                 started := q.started - {rq}, soft := q.soft + {rq});
    var p := if q.ordseq == {} then 0 else RequeuePos(q1, rq, 0);
    q1.(list := InsertAt(q1.list, p, rq))
  }

  /** The part of elv_completed_request that waits for the queue to drain. */
  function DrainCheck(q: Queue): (Queue, Option<Ended>)
    requires q.ordseq != {} ==> q.orig.Some?
  {
    if q.ordseq != {} && q.inFlight == 0 && CurSeq(q.ordseq) == Drain
       && (q.list == [] || Rank(ReqSeq(q, q.list[0])) > Rank(Drain))
    then CompleteSeq(q, {Drain}, 0)
    else (q, None)
  }

  /** elv_completed_request */
  function CompletedRequest(q: Queue, rq: Rq): (n: (Queue, Option<Ended>))
    requires q.ordseq != {} ==> q.orig.Some?
    ensures n.0.nextOrdered == q.nextOrdered && n.0.list == q.list
  {
    DrainCheck(q.(inFlight := if Accounted(q, rq) then q.inFlight - 1 else q.inFlight))
  }

  function StageOf(p: Rq): Stage
    requires !p.Pool?
  {
    match p case PreFlush => Pre case BarRq => Bar case PostFlush => Post
  }

  /** pre_flush_end_io, bar_end_io and post_flush_end_io. */
  function ProxyEndIo(q: Queue, p: Rq, error: int): (n: (Queue, Option<Ended>, Option<Ended>))
    requires !p.Pool?
    requires q.ordseq != {} ==> q.orig.Some?
    ensures n.0.nextOrdered == q.nextOrdered && n.0.list == q.list
  {
    var (q1, e1) := CompletedRequest(q, p);
    var (q2, e2) := CompleteSeq(q1, {StageOf(p)}, error);
    (q2, e1, e2)
  }
}
