/** elv_dispatch_sort of block/elevator.c: sorted insertion into the dispatch queue. */
module DispatchSort {
  import opened Lists

  /** `stop` says that the request is a barrier or has been started. */
  datatype Rq = Rq(id: nat, pos: nat, write: bool, discard: bool, stop: bool)

  predicate SameKind(a: Rq, b: Rq) { a.write == b.write && a.discard == b.discard }

  /** The order of one sweep of the head: from the boundary up, then from the start up to it. */
  predicate SweepsBefore(boundary: nat, a: Rq, b: Rq) {
    if a.pos >= boundary then b.pos < boundary || a.pos < b.pos else b.pos < boundary && a.pos < b.pos
  }

  /** How far up a head at the boundary has to go to reach a position, from the end of a disk back to its
      start. */
  function Distance(boundary: nat, size: nat, pos: nat): nat
    requires boundary <= size
  {
    if pos >= boundary then pos - boundary else pos + (size - boundary)
  }

  /** The order of a sweep is that of the distances, whatever the size of the disk. */
  lemma SweepIsDistance(boundary: nat, size: nat, a: Rq, b: Rq)
    requires boundary <= size && a.pos < size && b.pos < size
    ensures SweepsBefore(boundary, a, b) <==> Distance(boundary, size, a.pos) < Distance(boundary, size, b.pos)
  {}

  /** A new request may be put ahead of one that is queued. */
  predicate Passes(boundary: nat, rq: Rq, queued: Rq) {
    SameKind(rq, queued) && !queued.stop && SweepsBefore(boundary, rq, queued)
  }

  /** Where the walk from the back of the queue stops. */
  function Place(list: seq<Rq>, boundary: nat, rq: Rq): (p: nat)
    ensures p <= |list| && (p > 0 ==> !Passes(boundary, rq, list[p - 1]))
    ensures forall j | p <= j < |list| :: Passes(boundary, rq, list[j])
  {
    var n := |list|;
    if n == 0 || !Passes(boundary, rq, list[n - 1]) then n else Place(list[..n - 1], boundary, rq)
  }

  function Inserted(list: seq<Rq>, boundary: nat, rq: Rq): seq<Rq> {
    InsertAt(list, Place(list, boundary, rq), rq)
  }

  /** From place i on the queue holds requests of one kind, none of them a barrier or started. */
  ghost predicate InRun(list: seq<Rq>, i: nat) {
    forall j | i <= j < |list| :: !list[j].stop && SameKind(list[j], list[|list| - 1])
  }

  /** The run at the back of the queue is in the order of one sweep. */
  ghost predicate TailSwept(list: seq<Rq>, boundary: nat) {
    forall i, j | 0 <= i < j < |list| && InRun(list, i) :: !SweepsBefore(boundary, list[j], list[i])
  }

  lemma OldRun(list: seq<Rq>, p: nat, rq: Rq, i: nat, i': nat)
    requires p <= |list| && i' < |list| && i == (if i' < p then i' else i' + 1) && InRun(InsertAt(list, p, rq), i)
    ensures InRun(list, i')
  {
    var r := InsertAt(list, p, rq);
    InsertAtIs(list, p, rq);
    hide InsertAt;
    forall j | i' <= j < |list|
      ensures !list[j].stop && SameKind(list[j], list[|list| - 1])
    {
      var k := if j < p then j else j + 1;
      assert r[k] == list[j];
      var n := if |list| - 1 < p then |list| - 1 else |list|;
      assert r[n] == list[|list| - 1];
    }
  }

  /** Sorted insertion keeps the run at the back in order. */
  lemma KeepsSweep(list: seq<Rq>, boundary: nat, rq: Rq)
    requires TailSwept(list, boundary)
    ensures TailSwept(Inserted(list, boundary, rq), boundary)
  {
    var p := Place(list, boundary, rq);
    var r := InsertAt(list, p, rq);
    InsertAtIs(list, p, rq);
    hide Place, InsertAt;
    forall i, j | 0 <= i < j < |r| && InRun(r, i)
      ensures !SweepsBefore(boundary, r[j], r[i])
    {
      if i != p {
        OldRun(list, p, rq, i, if i < p then i else i - 1);
      }
      if i == p {
        assert r[j] == list[j - 1];
      } else if j == p {
        assert r[p - 1] == list[p - 1] && r[p] == rq;
        assert !SweepsBefore(boundary, rq, list[p - 1]);
        Transitive(boundary, rq, list[p - 1], list[i]);
      }
    }
  }

  lemma Transitive(boundary: nat, a: Rq, b: Rq, c: Rq)
    requires !SweepsBefore(boundary, a, b) && (b == c || !SweepsBefore(boundary, b, c))
    ensures !SweepsBefore(boundary, a, c)
  {}

  // ----- any series of insertions

  function Queued(list: seq<Rq>, boundary: nat, rqs: seq<Rq>): seq<Rq>
    decreases |rqs|
  {
    if rqs == [] then list else Queued(Inserted(list, boundary, rqs[0]), boundary, rqs[1..])
  }

  /** Any series of insertions keeps the run at the back in the order of one sweep, and leaves
      everything up to a barrier or a started request as it was. */
  lemma {:induction false} SeriesKeepsSweep(list: seq<Rq>, boundary: nat, rqs: seq<Rq>, k: nat)
    requires TailSwept(list, boundary)
    ensures TailSwept(Queued(list, boundary, rqs), boundary)
    ensures k < |list| && list[k].stop ==> list[..k + 1] <= Queued(list, boundary, rqs)
    decreases |rqs|
  {
    if rqs != [] {
      KeepsSweep(list, boundary, rqs[0]);
      var r := Inserted(list, boundary, rqs[0]);
      if k < |list| && list[k].stop {
        assert k < Place(list, boundary, rqs[0]);
        assert r[k] == list[k] && r[..k + 1] == list[..k + 1];
      }
      hide Inserted, TailSwept;
      SeriesKeepsSweep(r, boundary, rqs[1..], k);
    }
  }

  /** A request already queued only ever has requests of its own kind put ahead of it, and keeps its
      place among those that were queued. */
  lemma PassesOnlyItsKind(list: seq<Rq>, boundary: nat, rq: Rq, j: nat)
    requires j < |list|
    ensures var p, r := Place(list, boundary, rq), Inserted(list, boundary, rq);
            && |r| == |list| + 1 && r[p] == rq && r[if j < p then j else j + 1] == list[j]
            && (j >= p ==> rq.write == list[j].write && rq.discard == list[j].discard && !list[j].stop)
            && (j >= p ==> SweepsBefore(boundary, rq, list[j]))
  {
    hide Place;
  }

  class DispatchQueue {
    var list: seq<Rq>
    var endSector: nat

    /** elv_dispatch_sort */
    method Sort(rq: Rq)
      modifies this`list
      ensures list == Inserted(old(list), endSector, rq)
      ensures old(TailSwept(list, endSector)) ==> TailSwept(list, endSector)
    {
      if TailSwept(list, endSector) { KeepsSweep(list, endSector, rq); }
      var boundary, entry := endSector, |list|;
      while entry > 0
        invariant 0 <= entry <= |list| && list == old(list)
        invariant forall j | entry <= j < |list| :: Passes(boundary, rq, list[j])
      {
        var pos := list[entry - 1];
        if rq.discard != pos.discard { break; }
        if rq.write != pos.write { break; }
        if pos.stop { break; }
        if rq.pos >= boundary {
          if pos.pos < boundary {
            entry := entry - 1;
            continue;
          }
        } else if pos.pos >= boundary {
          break;
        }
        if rq.pos >= pos.pos { break; }
        entry := entry - 1;
      }
      PlaceIs(list, boundary, rq, entry);
      list := list[..entry] + [rq] + list[entry..];
    }
  }

  lemma PlaceIs(list: seq<Rq>, boundary: nat, rq: Rq, p: nat)
    requires p <= |list| && (p > 0 ==> !Passes(boundary, rq, list[p - 1]))
    requires forall j | p <= j < |list| :: Passes(boundary, rq, list[j])
    ensures Place(list, boundary, rq) == p
  {
    hide Place;
  }
}
