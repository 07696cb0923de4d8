/** The request pool of block/blk-core.c and the elevator switch of block/elevator.c, as a state
    machine: the lock is dropped between taking a place in the pool and allocating the request, and
    while a switch waits for requests to drain. */
module Pool {
  import opened Options

  datatype MayQueue = No | May | Must

  /** A request of the pool. `priv` says that it was counted in elvpriv, and `data` is the elevator
      its private data belongs to, once it has been allocated. */
  datatype Rq = Rq(sync: bool, priv: bool, pending: bool, data: Option<nat>)

  datatype Switch = NoSwitch | Draining | Attached(former: nat) | Failed

  /** count, starved and the queue-full flag of one direction. */
  datatype Half = Half(count: nat, starved: bool, full: bool)

  datatype Pool = Pool(sync: Half, async: Half, elvpriv: nat, elevator: nat, elvswitch: bool, phase: Switch, rqs: map<nat, Rq>)

  datatype Action =
    | Get(id: nat, sync: bool, may: MayQueue, batching: bool)
    | AllocOk(id: nat)
    | AllocFail(id: nat)
    | Put(id: nat)
    | SwitchStart
    | SwitchAttach(elevator: nat)
    | SwitchEnd
    | SwitchFail
    | SwitchFailEnd

  function HalfOf(p: Pool, sync: bool): Half { if sync then p.sync else p.async }

  function WithHalf(p: Pool, sync: bool, h: Half): Pool { if sync then p.(sync := h) else p.(async := h) }

  /** When get_request gives out a request: the scheduler does not forbid it, less than half as many
      again as nr_requests are out, and the queue is not full for this process. */
  predicate Admits(nr: nat, h: Half, may: MayQueue, batching: bool) {
    && may != No && h.count < 3 * nr / 2
    && (h.count + 1 < nr || !h.full || may == Must || batching)
  }

  /** get_request up to the point where it drops the lock. */
  function Got(nr: nat, p: Pool, id: nat, sync: bool, may: MayQueue, batching: bool): Pool {
    var h := HalfOf(p, sync);
    var full := h.full || (may != No && h.count + 1 >= nr);
    if !Admits(nr, h, may, batching) then
      WithHalf(p, sync, h.(full := full, starved := h.starved || (may == No && h.count == 0)))
    else
      var priv := !p.elvswitch;
      var p1 := WithHalf(p, sync, Half(h.count + 1, false, full));
      p1.(elvpriv := p.elvpriv + (if priv then 1 else 0), rqs := p.rqs[id := Rq(sync, priv, true, None)])
  }

  /** freed_request */
  function Freed(nr: nat, p: Pool, id: nat): Pool
    requires id in p.rqs && HalfOf(p, p.rqs[id].sync).count > 0 && (p.rqs[id].priv ==> p.elvpriv > 0)
  {
    var rq := p.rqs[id];
    var h, o := HalfOf(p, rq.sync), HalfOf(p, !rq.sync);
    var p1 := WithHalf(p, rq.sync, h.(count := h.count - 1, full := h.full && h.count > nr));
    var p2 := WithHalf(p1, !rq.sync, if o.starved then o.(full := o.full && o.count + 1 > nr) else o);
    p2.(elvpriv := p.elvpriv - (if rq.priv then 1 else 0), rqs := p.rqs - {id})
  }

  predicate Counted(p: Pool, id: nat) {
    id in p.rqs && HalfOf(p, p.rqs[id].sync).count > 0 && (p.rqs[id].priv ==> p.elvpriv > 0)
  }

  predicate Enabled(p: Pool, a: Action) {
    match a
    case Get(id, _, _, _) => id !in p.rqs
    case AllocOk(id) => id in p.rqs && p.rqs[id].pending
    case AllocFail(id) => Counted(p, id) && p.rqs[id].pending
    case Put(id) => Counted(p, id) && !p.rqs[id].pending
    case SwitchStart => p.phase.NoSwitch?
    case SwitchAttach(_) => p.phase.Draining? && p.elvpriv == 0
    case SwitchEnd => p.phase.Attached?
    case SwitchFail => p.phase.Attached?
    case SwitchFailEnd => p.phase.Failed?
  }

  function Apply(nr: nat, p: Pool, a: Action): Pool
    requires Enabled(p, a)
  {
    match a
    case Get(id, sync, may, batching) => Got(nr, p, id, sync, may, batching)
    case AllocOk(id) =>
      var rq := p.rqs[id];
      p.(rqs := p.rqs[id := rq.(pending := false, data := if rq.priv then Some(p.elevator) else None)])
    case AllocFail(id) =>
      var sync := p.rqs[id].sync;
      var p1 := Freed(nr, p, id);
      var h := HalfOf(p1, sync);
      WithHalf(p1, sync, h.(starved := h.starved || h.count == 0))
    case Put(id) => Freed(nr, p, id)
    case SwitchStart => p.(elvswitch := true, phase := Draining)
    case SwitchAttach(e) => p.(elevator := e, phase := Attached(p.elevator))
    case SwitchEnd => p.(elvswitch := false, phase := NoSwitch)
    case SwitchFail => p.(elevator := p.phase.former, phase := Failed)
    case SwitchFailEnd => p.(elvswitch := false, phase := NoSwitch)
  }

  // ----- what every step keeps

  function OfSync(rqs: map<nat, Rq>, sync: bool): set<nat> { set id | id in rqs && rqs[id].sync == sync }

  function WithPriv(rqs: map<nat, Rq>): set<nat> { set id | id in rqs && rqs[id].priv }

  ghost predicate HalfOk(nr: nat, rqs: map<nat, Rq>, sync: bool, h: Half) {
    && h.count == |OfSync(rqs, sync)| && h.count <= 3 * nr / 2
    && (nr > 0 ==> (h.full <==> h.count >= nr))
    && (h.starved ==> h.count == 0)
  }

  ghost predicate Inv(nr: nat, p: Pool) {
    && HalfOk(nr, p.rqs, true, p.sync) && HalfOk(nr, p.rqs, false, p.async)
    && p.elvpriv == |WithPriv(p.rqs)|
    && (p.elvswitch <==> !p.phase.NoSwitch?)
    && (p.phase.Attached? || p.phase.Failed? ==> p.elvpriv == 0)
    && (forall id | id in p.rqs :: p.rqs[id].data == if p.rqs[id].priv && !p.rqs[id].pending then Some(p.elevator) else None)
  }

  lemma OfSyncPut(rqs: map<nat, Rq>, id: nat, rq: Rq, sync: bool)
    requires id !in rqs
    ensures |OfSync(rqs[id := rq], sync)| == |OfSync(rqs, sync)| + if rq.sync == sync then 1 else 0
  {
    assert OfSync(rqs[id := rq], sync) == if rq.sync == sync then OfSync(rqs, sync) + {id} else OfSync(rqs, sync);
  }

  lemma OfSyncDrop(rqs: map<nat, Rq>, id: nat, sync: bool)
    requires id in rqs
    ensures |OfSync(rqs - {id}, sync)| == |OfSync(rqs, sync)| - if rqs[id].sync == sync then 1 else 0
  {
    assert OfSync(rqs - {id}, sync) == if rqs[id].sync == sync then OfSync(rqs, sync) - {id} else OfSync(rqs, sync);
  }

  lemma WithPrivPut(rqs: map<nat, Rq>, id: nat, rq: Rq)
    requires id !in rqs
    ensures |WithPriv(rqs[id := rq])| == |WithPriv(rqs)| + if rq.priv then 1 else 0
  {
    assert WithPriv(rqs[id := rq]) == if rq.priv then WithPriv(rqs) + {id} else WithPriv(rqs);
  }

  lemma WithPrivDrop(rqs: map<nat, Rq>, id: nat)
    requires id in rqs
    ensures |WithPriv(rqs - {id})| == |WithPriv(rqs)| - if rqs[id].priv then 1 else 0
  {
    assert WithPriv(rqs - {id}) == if rqs[id].priv then WithPriv(rqs) - {id} else WithPriv(rqs);
  }

  lemma GotInv(nr: nat, p: Pool, id: nat, sync: bool, may: MayQueue, batching: bool)
    requires Inv(nr, p) && id !in p.rqs
    ensures Inv(nr, Got(nr, p, id, sync, may, batching))
  {
    var rq := Rq(sync, !p.elvswitch, true, None);
    OfSyncPut(p.rqs, id, rq, true);
    OfSyncPut(p.rqs, id, rq, false);
    WithPrivPut(p.rqs, id, rq);
    hide OfSync, WithPriv;
  }

  lemma FreedInv(nr: nat, p: Pool, id: nat)
    requires Inv(nr, p) && Counted(p, id)
    ensures Inv(nr, Freed(nr, p, id))
  {
    OfSyncDrop(p.rqs, id, true);
    OfSyncDrop(p.rqs, id, false);
    WithPrivDrop(p.rqs, id);
    hide OfSync, WithPriv;
  }

  /** A request of the pool is always counted, so giving it back is always possible. */
  lemma AlwaysCounted(nr: nat, p: Pool, id: nat)
    requires Inv(nr, p) && id in p.rqs
    ensures Counted(p, id)
  {
    assert id in OfSync(p.rqs, p.rqs[id].sync);
    if p.rqs[id].priv { assert id in WithPriv(p.rqs); }
  }

  lemma AllocOkInv(nr: nat, p: Pool, id: nat)
    requires Inv(nr, p) && id in p.rqs && p.rqs[id].pending
    ensures Inv(nr, Apply(nr, p, AllocOk(id)))
  {
    var p' := Apply(nr, p, AllocOk(id));
    assert OfSync(p'.rqs, true) == OfSync(p.rqs, true) && OfSync(p'.rqs, false) == OfSync(p.rqs, false);
    assert WithPriv(p'.rqs) == WithPriv(p.rqs);
  }

  /** No request carries private data, now or once it is allocated. */
  ghost predicate Unattached(p: Pool) { forall id | id in p.rqs :: !p.rqs[id].priv && p.rqs[id].data == None }

  lemma NoneCounted(nr: nat, p: Pool)
    requires Inv(nr, p) && p.elvpriv == 0
    ensures Unattached(p)
  {
    forall id | id in p.rqs
      ensures !p.rqs[id].priv
    {
      assert id !in WithPriv(p.rqs);
    }
  }

  lemma StepInv(nr: nat, p: Pool, a: Action)
    requires Inv(nr, p) && Enabled(p, a)
    ensures Inv(nr, Apply(nr, p, a))
  {
    hide OfSync, WithPriv;
    match a
    case Get(id, sync, may, batching) => GotInv(nr, p, id, sync, may, batching);
    case AllocOk(id) => AllocOkInv(nr, p, id);
    case AllocFail(id) => FreedInv(nr, p, id);
    case Put(id) => FreedInv(nr, p, id);
    case SwitchAttach(e) => NoneCounted(nr, p);
    case SwitchFail => NoneCounted(nr, p);
    case _ =>
  }

  ghost predicate IsRun(nr: nat, p: Pool, run: seq<Action>, end: Pool)
    decreases |run|
  {
    if run == [] then end == p else Enabled(p, run[0]) && IsRun(nr, Apply(nr, p, run[0]), run[1..], end)
  }

  lemma {:induction false} RunInv(nr: nat, p: Pool, run: seq<Action>, end: Pool)
    requires Inv(nr, p) && IsRun(nr, p, run, end)
    ensures Inv(nr, end)
    decreases |run|
  {
    hide Inv, Enabled, Apply;
    if run != [] {
      StepInv(nr, p, run[0]);
      RunInv(nr, Apply(nr, p, run[0]), run[1..], end);
    }
  }

  function Empty(elevator: nat): Pool {
    Pool(Half(0, false, false), Half(0, false, false), 0, elevator, false, NoSwitch, map[])
  }

  lemma EmptyInv(nr: nat, elevator: nat)
    ensures Inv(nr, Empty(elevator))
  {
    assert OfSync(map[], true) == {} && OfSync(map[], false) == {} && WithPriv(map[]) == {};
  }

  /** However allocators and a switch interleave: each count is the number of requests allocated or
      being allocated and never exceeds half as many again as nr_requests, elvpriv is the number of
      those with elevator-private data, and all such data belongs to the elevator in place. */
  lemma CountsAreExact(nr: nat, elevator: nat, run: seq<Action>, p: Pool, id: nat, sync: bool)
    requires IsRun(nr, Empty(elevator), run, p)
    ensures HalfOf(p, sync).count == |OfSync(p.rqs, sync)| <= 3 * nr / 2
    ensures p.elvpriv == |WithPriv(p.rqs)|
    ensures id in p.rqs && p.rqs[id].data.Some? ==> p.rqs[id].data == Some(p.elevator)
  {
    EmptyInv(nr, elevator);
    RunInv(nr, Empty(elevator), run, p);
  }

  /** The elevator is only ever replaced, or put back, while no request carries such data or is about
      to get some. */
  lemma SwitchFindsNoData(nr: nat, elevator: nat, run: seq<Action>, p: Pool, a: Action)
    requires IsRun(nr, Empty(elevator), run, p) && Enabled(p, a) && Apply(nr, p, a).elevator != p.elevator
    ensures Unattached(p)
  {
    EmptyInv(nr, elevator);
    RunInv(nr, Empty(elevator), run, p);
    hide OfSync, WithPriv;
    NoneCounted(nr, p);
  }

  /** A direction is marked starved only while it has no request at all, so that freeing one of its
      own could not wake its waiters. */
  lemma StarvedHasNone(nr: nat, elevator: nat, run: seq<Action>, p: Pool, id: nat)
    requires IsRun(nr, Empty(elevator), run, p) && id in p.rqs
    ensures !HalfOf(p, p.rqs[id].sync).starved
  {
    EmptyInv(nr, elevator);
    RunInv(nr, Empty(elevator), run, p);
    AlwaysCounted(nr, p, id);
  }

  /** Only a batching process, or one the scheduler exempts, gets a request once nr_requests are out. */
  lemma OnlyBatchersExceed(nr: nat, elevator: nat, run: seq<Action>, p: Pool, id: nat, sync: bool, may: MayQueue)
    requires IsRun(nr, Empty(elevator), run, p) && id !in p.rqs && may != Must && nr > 0
    ensures id in Apply(nr, p, Get(id, sync, may, false)).rqs ==> HalfOf(p, sync).count < nr
  {
    EmptyInv(nr, elevator);
    RunInv(nr, Empty(elevator), run, p);
  }

  /** Who gets a request: everyone the scheduler lets in while fewer than nr_requests are out, and a
      batching or exempted process while fewer than half as many again are. */
  predicate Gets(nr: nat, count: nat, may: MayQueue, batching: bool) {
    may != No && (count < nr || (count < 3 * nr / 2 && (may == Must || batching)))
  }

  lemma AdmitsIff(nr: nat, p: Pool, sync: bool, may: MayQueue, batching: bool)
    requires Inv(nr, p) && nr > 0
    ensures Admits(nr, HalfOf(p, sync), may, batching) <==> Gets(nr, HalfOf(p, sync).count, may, batching)
  {
    hide OfSync, WithPriv;
  }

  lemma AdmittedIff(nr: nat, elevator: nat, run: seq<Action>, p: Pool, id: nat, sync: bool, may: MayQueue, batching: bool)
    requires IsRun(nr, Empty(elevator), run, p) && id !in p.rqs && nr > 0
    ensures id in Apply(nr, p, Get(id, sync, may, batching)).rqs <==> Gets(nr, HalfOf(p, sync).count, may, batching)
  {
    EmptyInv(nr, elevator);
    RunInv(nr, Empty(elevator), run, p);
    AdmitsIff(nr, p, sync, may, batching);
    hide IsRun, Inv, Admits;
  }

  /** A process of this direction asks for a request, or waits for memory, and goes away without one. */
  predicate GoesWithout(nr: nat, p: Pool, a: Action, sync: bool)
    requires Enabled(p, a)
  {
    match a
    case Get(id, s, _, _) => s == sync && id !in Apply(nr, p, a).rqs
    case AllocFail(id) => p.rqs[id].sync == sync
    case _ => false
  }

  /** If its direction then has no request it is marked starved, so that a request freed in the other
      direction makes room for it. */
  lemma StarvedIsMarked(nr: nat, elevator: nat, run: seq<Action>, p: Pool, a: Action, sync: bool)
    requires IsRun(nr, Empty(elevator), run, p) && Enabled(p, a) && nr > 0 && GoesWithout(nr, p, a, sync)
    ensures HalfOf(Apply(nr, p, a), sync).count == 0 ==> HalfOf(Apply(nr, p, a), sync).starved
  {
    EmptyInv(nr, elevator);
    RunInv(nr, Empty(elevator), run, p);
    if a.Get? { AdmitsIff(nr, p, sync, a.may, a.batching); }
    hide IsRun, OfSync, WithPriv;
  }

  // ----- the pool in place

  class RequestList {
    const nrRequests: nat
    const congestionOn: nat
    var sync: Half
    var async: Half
    var elvpriv: nat
    var elevator: nat
    var elvswitch: bool
    var phase: Switch
    var rqs: map<nat, Rq>

    ghost function Now(): Pool
      reads this
    {
      Pool(sync, async, elvpriv, elevator, elvswitch, phase, rqs)
    }

    ghost predicate Valid()
      reads this
    {
      Inv(nrRequests, Now()) && congestionOn <= nrRequests
    }

    constructor (nr: nat, on: nat, e: nat)
      requires on <= nr
      ensures Valid() && rqs == map[] && elevator == e && nrRequests == nr
    {
      nrRequests, congestionOn, elevator := nr, on, e;
      sync, async := Half(0, false, false), Half(0, false, false);
      elvpriv, elvswitch, phase, rqs := 0, false, NoSwitch, map[];
      new;
      EmptyInv(nr, e);
    }

    method SetHalf(isSync: bool, h: Half)
      modifies this`sync, this`async
      ensures Now() == WithHalf(old(Now()), isSync, h)
    {
      if isSync { sync := h; } else { async := h; }
    }

    /** get_request up to the point where it drops the lock. */
    method GetRequest(id: nat, isSync: bool, may: MayQueue, batching: bool) returns (ok: bool)
      requires Valid() && id !in rqs
      modifies this
      ensures Valid() && Now() == Got(nrRequests, old(Now()), id, isSync, may, batching)
      ensures ok <==> id in rqs
      ensures nrRequests > 0 ==> (ok <==> Gets(nrRequests, old(HalfOf(Now(), isSync).count), may, batching))
    {
      hide Inv, OfSync, WithPriv, Gets;
      if nrRequests > 0 { AdmitsIff(nrRequests, Now(), isSync, may, batching); }
      GotInv(nrRequests, Now(), id, isSync, may, batching);
      var h := if isSync then sync else async;
      if may == No {
        if h.count == 0 { h := h.(starved := true); }
        SetHalf(isSync, h);
        return false;
      }
      if h.count + 1 >= congestionOn && h.count + 1 >= nrRequests {
        if !h.full {
          h := h.(full := true);
          SetHalf(isSync, h);
        } else if may != Must && !batching {
          return false;
        }
      }
      if h.count >= 3 * nrRequests / 2 { return false; }
      SetHalf(isSync, h.(count := h.count + 1, starved := false));
      var priv := !elvswitch;
      if priv { elvpriv := elvpriv + 1; }
      rqs := rqs[id := Rq(isSync, priv, true, None)];
      return true;
    }

    /** __freed_request: a queue with room again is no longer full. */
    method MakeRoom(isSync: bool)
      modifies this`sync, this`async
      ensures var h := HalfOf(old(Now()), isSync);
              Now() == WithHalf(old(Now()), isSync, h.(full := h.full && h.count + 1 > nrRequests))
    {
      var h := if isSync then sync else async;
      if h.count + 1 <= nrRequests {
        SetHalf(isSync, h.(full := false));
      }
    }

    /** freed_request */
    method FreedRequest(id: nat)
      requires Valid() && id in rqs
      modifies this
      ensures Valid() && old(Counted(Now(), id)) && Now() == Freed(nrRequests, old(Now()), id)
    {
      hide Inv;
      AlwaysCounted(nrRequests, Now(), id);
      FreedInv(nrRequests, Now(), id);
      var rq := rqs[id];
      var h := if rq.sync then sync else async;
      SetHalf(rq.sync, h.(count := h.count - 1));
      if rq.priv { elvpriv := elvpriv - 1; }
      MakeRoom(rq.sync);
      var o := if rq.sync then async else sync;
      if o.starved {
        MakeRoom(!rq.sync);
      }
      rqs := rqs - {id};
    }
  }
}
