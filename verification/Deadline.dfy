/** The deadline scheduler of block/deadline-iosched.c as a state machine: every operation on
    its two sorted trees and its two FIFOs. A tree is the sequence of its nodes in order. */
module Deadline {
  import opened Options
  import opened Lists

  datatype Dir = Read | Write

  datatype Rq = Rq(pos: nat, end: nat, dir: Dir, expire: nat)

  type Rqs = map<nat, Rq>

  /** The tree, the FIFO and next_rq of one direction. */
  datatype Side = Side(sort: seq<nat>, fifo: seq<nat>, next: Option<nat>)

  datatype Tunables = Tunables(readExpire: nat, writeExpire: nat, batch: nat, starve: nat)

  /** `queue` are the requests handed to the dispatch queue, `joined` those merged into others, and
      `now` the last value of jiffies an operation saw. */
  datatype State = State(rqs: Rqs, read: Side, write: Side, batching: nat, starved: nat, lastSector: nat,
                         queue: seq<nat>, joined: set<nat>, now: nat)

  function SideOf(s: State, d: Dir): Side { if d == Read then s.read else s.write }

  function WithSide(s: State, d: Dir, side: Side): State {
    if d == Read then s.(read := side) else s.(write := side)
  }

  function Expiry(t: Tunables, d: Dir): nat { if d == Read then t.readExpire else t.writeExpire }

  // ----- one direction

  /** deadline_latter_request */
  function Latter(sort: seq<nat>, id: nat): Option<nat>
    requires id in sort
  {
    var i := IndexOf(sort, id);
    if i + 1 < |sort| then Some(sort[i + 1]) else None
  }

  /** deadline_remove_request */
  function Removed(side: Side, id: nat): Side
    requires id in side.sort
  {
    Side(Without(side.sort, id), Without(side.fifo, id), if side.next == Some(id) then Latter(side.sort, id) else side.next)
  }

  predicate Before(rqs: Rqs, id: nat, pos: nat) { id in rqs && rqs[id].pos < pos }

  /** How many requests a tree has before pos. */
  function Place(rqs: Rqs, sort: seq<nat>, pos: nat): (k: nat)
    ensures k <= |sort|
  {
    if sort == [] || !Before(rqs, sort[0], pos) then 0 else 1 + Place(rqs, sort[1..], pos)
  }

  /** The request a tree already has at pos. */
  function Alias(rqs: Rqs, sort: seq<nat>, pos: nat): (r: Option<nat>)
    ensures r.Some? ==> r.value in sort && r.value in rqs && rqs[r.value].pos == pos
  {
    var k := Place(rqs, sort, pos);
    if k < |sort| && sort[k] in rqs && rqs[sort[k]].pos == pos then Some(sort[k]) else None
  }

  // ----- operations

  /** deadline_move_request */
  function Moved(s: State, d: Dir, id: nat): State
    requires id in s.rqs && id in SideOf(s, d).sort
  {
    var side := SideOf(s, d);
    var s1 := s.(read := s.read.(next := None), write := s.write.(next := None), lastSector := s.rqs[id].end, queue := s.queue + [id]);
    WithSide(s1, d, Removed(side.(next := Latter(side.sort, id)), id))
  }

  /** The loop of deadline_add_rq_rb: a request that starts at the sector is moved out of the way. */
  function Cleared(s: State, d: Dir, pos: nat): State {
    var alias := Alias(s.rqs, SideOf(s, d).sort, pos);
    if alias.Some? then Moved(s, d, alias.value) else s
  }

  function TreeAdded(s: State, d: Dir, id: nat, pos: nat): State {
    var side := SideOf(s, d);
    WithSide(s, d, side.(sort := InsertAt(side.sort, Place(s.rqs, side.sort, pos), id)))
  }

  function FifoAdded(s: State, d: Dir, id: nat): State {
    var side := SideOf(s, d);
    WithSide(s, d, side.(fifo := side.fifo + [id]))
  }

  /** deadline_add_request */
  function Added(t: Tunables, s: State, id: nat, pos: nat, end: nat, d: Dir, now: nat): State {
    var s1 := TreeAdded(Cleared(s, d, pos), d, id, pos);
    FifoAdded(s1.(rqs := s1.rqs[id := Rq(pos, end, d, now + Expiry(t, d))], now := now), d, id)
  }

  /** deadline_merged_request after a bio was merged at the front: the request goes from its old
      place to that of its new first sector. */
  function FrontMerged(s: State, d: Dir, id: nat, pos: nat): State
    requires id in s.rqs
  {
    var side := SideOf(s, d);
    var s1 := WithSide(s, d, side.(sort := Without(side.sort, id)));
    var s2 := TreeAdded(Cleared(s1, d, pos), d, id, pos);
    s2.(rqs := s2.rqs[id := s2.rqs[id].(pos := pos)])
  }

  /** A request whose bios were extended at the end stays where it is. */
  function BackMerged(s: State, id: nat, end: nat): State
    requires id in s.rqs
  {
    s.(rqs := s.rqs[id := s.rqs[id].(end := end)])
  }

  /** The FIFO when `id` inherits the place of a request that expires sooner. */
  function Inherited(fifo: seq<nat>, id: nat, next: nat): seq<nat>
    requires NoDup(fifo) && next in fifo && id != next
  {
    WithoutMembers(fifo, id);
    var rest := Without(fifo, id);
    InsertAt(rest, IndexOf(rest, next) + 1, id)
  }

  /** deadline_merged_requests */
  function Joined(s: State, d: Dir, id: nat, next: nat): State
    requires id in s.rqs && next in s.rqs && id != next && next in SideOf(s, d).sort
    requires next in SideOf(s, d).fifo && NoDup(SideOf(s, d).fifo)
  {
    var side, a, b := SideOf(s, d), s.rqs[id], s.rqs[next];
    var sooner := b.expire < a.expire;
    var side1 := if sooner then side.(fifo := Inherited(side.fifo, id, next)) else side;
    var rqs := s.rqs[id := a.(end := b.end, expire := if sooner then b.expire else a.expire)];
    WithSide(s.(rqs := rqs, joined := s.joined + {next}), d, Removed(side1, next))
  }

  /** deadline_check_fifo */
  predicate FifoExpired(s: State, d: Dir, now: nat)
    requires SideOf(s, d).fifo != [] && SideOf(s, d).fifo[0] in s.rqs
  {
    s.rqs[SideOf(s, d).fifo[0]].expire < now
  }

  /** What deadline_dispatch_requests chooses: a request, its direction and whether it goes on with
      the batch that is running. */
  datatype Choice = Nothing | Choice(id: nat, dir: Dir, goesOn: bool)

  predicate Running(t: Tunables, s: State) { (s.write.next.Some? || s.read.next.Some?) && s.batching < t.batch }

  predicate HeadsKnown(s: State) {
    && (s.read.fifo != [] ==> s.read.fifo[0] in s.rqs)
    && (s.write.fifo != [] ==> s.write.fifo[0] in s.rqs)
  }

  function Choose(t: Tunables, s: State, now: nat): Choice
    requires HeadsKnown(s)
  {
    if Running(t, s) then
      if s.write.next.Some? then Choice(s.write.next.value, Write, true) else Choice(s.read.next.value, Read, true)
    else if s.read.fifo != [] && (s.write.fifo == [] || s.starved < t.starve) then NewBatch(s, Read, now)
    else if s.write.fifo != [] then NewBatch(s, Write, now)
    else Nothing
  }

  function NewBatch(s: State, d: Dir, now: nat): Choice
    requires SideOf(s, d).fifo != [] && SideOf(s, d).fifo[0] in s.rqs
  {
    var side := SideOf(s, d);
    if FifoExpired(s, d, now) || side.next.None? then Choice(side.fifo[0], d, false) else Choice(side.next.value, d, false)
  }

  function Starved(s: State, c: Choice): nat {
    if c.Nothing? || c.goesOn then s.starved
    else if c.dir == Write then 0
    else if s.write.fifo != [] then s.starved + 1 else s.starved
  }

  /** deadline_dispatch_requests */
  function Dispatched(s: State, c: Choice, now: nat): State
    requires c.Choice? ==> c.id in s.rqs && c.id in SideOf(s, c.dir).sort
  {
    if c.Nothing? then s.(now := now)
    else Moved(s.(starved := Starved(s, c), batching := if c.goesOn then s.batching + 1 else 1, now := now), c.dir, c.id)
  }

  // ----- what every operation keeps

  /** A tree holds requests of its direction, by strictly ascending start sector. */
  ghost predicate Sorted(rqs: Rqs, sort: seq<nat>, d: Dir) {
    && (forall i | 0 <= i < |sort| :: sort[i] in rqs && rqs[sort[i]].dir == d)
    && (forall i, j | 0 <= i < j < |sort| :: rqs[sort[i]].pos < rqs[sort[j]].pos)
  }

  /** A FIFO is ordered by expiry, and nothing in it expires after `late`. */
  ghost predicate Aged(rqs: Rqs, fifo: seq<nat>, late: nat) {
    && (forall i | 0 <= i < |fifo| :: fifo[i] in rqs && rqs[fifo[i]].expire <= late)
    && (forall i, j | 0 <= i < j < |fifo| :: rqs[fifo[i]].expire <= rqs[fifo[j]].expire)
  }

  /** A request is in the tree iff it is in the FIFO, but for those in `out`, which are on their way
      to another place of the tree. */
  ghost predicate Matched(side: Side, out: set<nat>) {
    && NoDup(side.fifo)
    && (forall x :: x in side.fifo <==> x in side.sort || x in out)
    && (forall x | x in out :: x !in side.sort)
    && (side.next.Some? ==> side.next.value in side.fifo)
  }

  ghost predicate SideOk(rqs: Rqs, side: Side, d: Dir, late: nat, out: set<nat>) {
    Sorted(rqs, side.sort, d) && Aged(rqs, side.fifo, late) && Matched(side, out)
  }

  lemma SortedNoDup(rqs: Rqs, sort: seq<nat>, d: Dir)
    requires Sorted(rqs, sort, d)
    ensures NoDup(sort)
  {}

  lemma SortedWithout(rqs: Rqs, sort: seq<nat>, d: Dir, id: nat)
    requires Sorted(rqs, sort, d)
    ensures Sorted(rqs, Without(sort, id), d)
  {
    hide IndexOf;
    if id in sort {
      var r := Without(sort, id);
      forall i | 0 <= i < |r|
        ensures r[i] in rqs && rqs[r[i]].dir == d
      {
        WithoutAt(sort, id, i);
      }
      forall i, j | 0 <= i < j < |r|
        ensures rqs[r[i]].pos < rqs[r[j]].pos
      {
        WithoutAt(sort, id, i);
        WithoutAt(sort, id, j);
      }
    }
  }

  lemma AgedWithout(rqs: Rqs, fifo: seq<nat>, late: nat, id: nat)
    requires Aged(rqs, fifo, late)
    ensures Aged(rqs, Without(fifo, id), late)
  {
    hide IndexOf;
    if id in fifo {
      var r := Without(fifo, id);
      forall i | 0 <= i < |r|
        ensures r[i] in rqs && rqs[r[i]].expire <= late
      {
        WithoutAt(fifo, id, i);
      }
      forall i, j | 0 <= i < j < |r|
        ensures rqs[r[i]].expire <= rqs[r[j]].expire
      {
        WithoutAt(fifo, id, i);
        WithoutAt(fifo, id, j);
      }
    }
  }

  /** A request that is not in the tree has no say in where the others are. */
  lemma {:induction false} PlaceFrame(rqs: Rqs, sort: seq<nat>, pos: nat, id: nat, rq: Rq)
    requires id !in sort
    ensures Place(rqs[id := rq], sort, pos) == Place(rqs, sort, pos)
  {
    if sort != [] {
      PlaceFrame(rqs, sort[1..], pos, id, rq);
    }
  }

  /** The place found splits a tree. */
  lemma {:induction false} PlaceSplits(rqs: Rqs, sort: seq<nat>, d: Dir, pos: nat)
    requires Sorted(rqs, sort, d)
    ensures var k := Place(rqs, sort, pos);
            && (forall i | 0 <= i < k :: rqs[sort[i]].pos < pos)
            && (forall i | k <= i < |sort| :: rqs[sort[i]].pos >= pos)
  {
    if sort != [] && Before(rqs, sort[0], pos) {
      PlaceSplits(rqs, sort[1..], d, pos);
      assert forall i | 1 <= i < |sort| :: sort[i] == sort[1..][i - 1];
    }
  }

  /** No request of a tree starts at pos. */
  ghost predicate Free(rqs: Rqs, sort: seq<nat>, pos: nat) {
    forall i | 0 <= i < |sort| :: sort[i] in rqs && rqs[sort[i]].pos != pos
  }

  /** There is an alias iff some request of the tree starts at the sector. */
  lemma AliasIffTaken(rqs: Rqs, sort: seq<nat>, d: Dir, pos: nat)
    requires Sorted(rqs, sort, d)
    ensures Alias(rqs, sort, pos).Some? <==> exists i | 0 <= i < |sort| :: rqs[sort[i]].pos == pos
  {
    hide Place;
    PlaceSplits(rqs, sort, d, pos);
  }

  lemma SortedInsert(rqs: Rqs, sort: seq<nat>, d: Dir, id: nat)
    requires Sorted(rqs, sort, d) && id in rqs && rqs[id].dir == d
    requires forall i | 0 <= i < |sort| :: rqs[sort[i]].pos != rqs[id].pos
    ensures Sorted(rqs, InsertAt(sort, Place(rqs, sort, rqs[id].pos), id), d)
  {
    hide Place, InsertAt;
    PlaceSplits(rqs, sort, d, rqs[id].pos);
    var k := Place(rqs, sort, rqs[id].pos);
    InsertAtIs(sort, k, id);
    var r := InsertAt(sort, k, id);
    forall i, j | 0 <= i < j < |r|
      ensures rqs[r[i]].pos < rqs[r[j]].pos
    {
      if i >= k { assert r[j] == sort[j - 1]; }
    }
  }

  lemma AgedInsert(rqs: Rqs, fifo: seq<nat>, late: nat, k: nat, id: nat)
    requires Aged(rqs, fifo, late) && id in rqs && rqs[id].expire <= late && k <= |fifo|
    requires k > 0 ==> rqs[fifo[k - 1]].expire <= rqs[id].expire
    requires k < |fifo| ==> rqs[id].expire <= rqs[fifo[k]].expire
    ensures Aged(rqs, InsertAt(fifo, k, id), late)
  {
    hide InsertAt;
    InsertAtIs(fifo, k, id);
    var r := InsertAt(fifo, k, id);
    forall i, j | 0 <= i < j < |r|
      ensures rqs[r[i]].expire <= rqs[r[j]].expire
    {
      if i >= k { assert r[j] == fifo[j - 1]; }
    }
  }

  lemma SortedFrame(rqs: Rqs, rqs': Rqs, sort: seq<nat>, d: Dir)
    requires Sorted(rqs, sort, d)
    requires forall x | x in sort :: x in rqs' && x in rqs && rqs'[x].pos == rqs[x].pos && rqs'[x].dir == rqs[x].dir
    ensures Sorted(rqs', sort, d)
  {}

  lemma AgedFrame(rqs: Rqs, rqs': Rqs, fifo: seq<nat>, late: nat, late': nat)
    requires Aged(rqs, fifo, late) && late <= late'
    requires forall x | x in fifo :: x in rqs' && x in rqs && rqs'[x].expire == rqs[x].expire
    ensures Aged(rqs', fifo, late')
  {}

  lemma LatterInTree(rqs: Rqs, sort: seq<nat>, d: Dir, id: nat)
    requires Sorted(rqs, sort, d) && id in sort
    ensures Latter(sort, id).Some? ==> Latter(sort, id).value in sort && Latter(sort, id).value != id
                                       && rqs[id].pos < rqs[Latter(sort, id).value].pos
  {}

  /** The next request of a batch is the nearest one above the one dispatched. */
  lemma LatterIsNearest(rqs: Rqs, sort: seq<nat>, d: Dir, id: nat, y: nat)
    requires Sorted(rqs, sort, d) && id in sort && y in sort && rqs[id].pos < rqs[y].pos
    ensures Latter(sort, id).Some? && Latter(sort, id).value in rqs && rqs[Latter(sort, id).value].pos <= rqs[y].pos
  {
    hide IndexOf;
    var i := IndexOf(sort, id);
    var j :| 0 <= j < |sort| && sort[j] == y;
    assert j > i;
    if j > i + 1 { assert rqs[sort[i + 1]].pos < rqs[sort[j]].pos; }
  }

  lemma RemovedOk(rqs: Rqs, side: Side, d: Dir, late: nat, out: set<nat>, id: nat)
    requires SideOk(rqs, side, d, late, out) && id in side.sort
    ensures SideOk(rqs, Removed(side, id), d, late, out)
  {
    SortedNoDup(rqs, side.sort, d);
    hide Sorted, Aged, NoDup, IndexOf, Without, Latter;
    SortedWithout(rqs, side.sort, d, id);
    AgedWithout(rqs, side.fifo, late, id);
    WithoutMembers(side.sort, id);
    WithoutMembers(side.fifo, id);
    LatterInTree(rqs, side.sort, d, id);
  }

  /** Every request seen is in one place: in its FIFO, in the dispatch queue, or joined to another. */
  ghost predicate Placed(s: State) {
    && NoDup(s.queue)
    && (forall id | id in s.read.fifo || id in s.write.fifo || id in s.queue || id in s.joined :: id in s.rqs)
    && (forall id | id in s.rqs :: id in SideOf(s, s.rqs[id].dir).fifo || id in s.queue || id in s.joined)
    && (forall id | id in s.read.fifo :: s.rqs[id].dir == Read)
    && (forall id | id in s.write.fifo :: s.rqs[id].dir == Write)
    && (forall id | id in s.read.fifo || id in s.write.fifo :: id !in s.queue && id !in s.joined)
    && (forall id | id in s.queue :: id !in s.joined)
  }

  ghost predicate InvBut(t: Tunables, s: State, d: Dir, out: set<nat>) {
    && SideOk(s.rqs, s.read, Read, s.now + t.readExpire, if d == Read then out else {})
    && SideOk(s.rqs, s.write, Write, s.now + t.writeExpire, if d == Write then out else {})
    && (s.read.next.None? || s.write.next.None?)
    && s.starved <= t.starve
    && Placed(s)
  }

  ghost predicate Inv(t: Tunables, s: State) { InvBut(t, s, Read, {}) }

  lemma MovedPlaced(s: State, d: Dir, id: nat)
    requires Placed(s) && id in s.rqs && s.rqs[id].dir == d && id in SideOf(s, d).sort && id in SideOf(s, d).fifo
    requires NoDup(SideOf(s, d).fifo)
    ensures Placed(Moved(s, d, id))
  {
    hide IndexOf, Without, Latter;
    WithoutMembers(SideOf(s, d).fifo, id);
  }

  lemma NextNone(rqs: Rqs, side: Side, d: Dir, late: nat, out: set<nat>, next: Option<nat>)
    requires SideOk(rqs, side, d, late, out) && (next.Some? ==> next.value in side.sort)
    ensures SideOk(rqs, side.(next := next), d, late, out)
  {
    hide Sorted, Aged, NoDup;
  }

  lemma MovedInv(t: Tunables, s: State, d: Dir, id: nat, od: Dir, out: set<nat>)
    requires InvBut(t, s, od, out) && id in s.rqs && id in SideOf(s, d).sort
    ensures InvBut(t, Moved(s, d, id), od, out) && Moved(s, d, id).rqs == s.rqs
  {
    hide Sorted, Aged, NoDup, IndexOf, Without, Latter, Placed;
    var side := SideOf(s, d);
    var late := s.now + Expiry(t, d);
    var o := if od == d then out else {};
    assert id in side.fifo && NoDup(side.fifo) && s.rqs[id].dir == d by { InTree(s.rqs, side, d, late, o, id); }
    MovedPlaced(s, d, id);
    LatterInTree(s.rqs, side.sort, d, id);
    hide Matched;
    NextNone(s.rqs, s.read, Read, s.now + t.readExpire, if od == Read then out else {}, None);
    NextNone(s.rqs, s.write, Write, s.now + t.writeExpire, if od == Write then out else {}, None);
    NextNone(s.rqs, side, d, late, o, Latter(side.sort, id));
    RemovedOk(s.rqs, side.(next := Latter(side.sort, id)), d, late, o, id);
  }

  lemma InTree(rqs: Rqs, side: Side, d: Dir, late: nat, out: set<nat>, id: nat)
    requires SideOk(rqs, side, d, late, out) && id in side.sort
    ensures id in side.fifo && NoDup(side.fifo) && id in rqs && rqs[id].dir == d && id !in out
  {
    hide NoDup;
  }

  lemma ClearedInv(t: Tunables, s: State, d: Dir, pos: nat, od: Dir, out: set<nat>)
    requires InvBut(t, s, od, out)
    ensures InvBut(t, Cleared(s, d, pos), od, out) && Cleared(s, d, pos).rqs == s.rqs
    ensures Free(s.rqs, SideOf(Cleared(s, d, pos), d).sort, pos) && Cleared(s, d, pos).now == s.now
  {
    hide Alias, SideOk, Placed, Free;
    var sort := SideOf(s, d).sort;
    assert Sorted(s.rqs, sort, d) by { SideSorted(s.rqs, SideOf(s, d), d, s.now + Expiry(t, d), if od == d then out else {}); }
    var alias := Alias(s.rqs, sort, pos);
    if alias.None? {
      AliasFree(s.rqs, sort, d, pos);
    } else {
      MovedInv(t, s, d, alias.value, od, out);
      WithoutAlias(s.rqs, sort, d, alias.value);
    }
  }

  lemma SideSorted(rqs: Rqs, side: Side, d: Dir, late: nat, out: set<nat>)
    requires SideOk(rqs, side, d, late, out)
    ensures Sorted(rqs, side.sort, d)
  {}

  lemma AliasFree(rqs: Rqs, sort: seq<nat>, d: Dir, pos: nat)
    requires Sorted(rqs, sort, d) && Alias(rqs, sort, pos).None?
    ensures Free(rqs, sort, pos)
  {
    hide Alias;
    AliasIffTaken(rqs, sort, d, pos);
  }

  lemma WithoutAlias(rqs: Rqs, sort: seq<nat>, d: Dir, id: nat)
    requires Sorted(rqs, sort, d) && id in sort
    ensures Free(rqs, Without(sort, id), rqs[id].pos)
  {
    SortedNoDup(rqs, sort, d);
    WithoutMembers(sort, id);
    hide IndexOf, Without;
    var r := Without(sort, id);
    forall i | 0 <= i < |r|
      ensures r[i] in rqs && rqs[r[i]].pos != rqs[id].pos
    {
      assert r[i] in sort && r[i] != id;
    }
  }

  // ----- each operation keeps the invariant

  function Other(d: Dir): Dir { if d == Read then Write else Read }

  /** A change of one request, or a later time, is nothing to a side that does not hold it. */
  lemma SideFrame(rqs: Rqs, side: Side, d: Dir, late: nat, late': nat, out: set<nat>, id: nat, rq: Rq)
    requires SideOk(rqs, side, d, late, out) && late <= late'
    requires id !in rqs || id !in side.fifo || rq == rqs[id]
    ensures SideOk(rqs[id := rq], side, d, late', out)
  {
    hide NoDup;
    assert forall x | x in side.fifo || x in side.sort :: x in rqs && x in side.fifo;
    SortedFrame(rqs, rqs[id := rq], side.sort, d);
    AgedFrame(rqs, rqs[id := rq], side.fifo, late, late');
  }

  /** A request enters its tree: one that is new and enters the FIFO as well, or one that was on its
      way. */
  lemma EntersNew(rqs: Rqs, side: Side, d: Dir, late: nat, id: nat)
    requires SideOk(rqs, side, d, late, {}) && id in rqs && rqs[id].dir == d && id !in side.fifo
    requires forall i | 0 <= i < |side.sort| :: rqs[side.sort[i]].pos != rqs[id].pos
    requires rqs[id].expire == late
    ensures var k := Place(rqs, side.sort, rqs[id].pos);
            SideOk(rqs, Side(InsertAt(side.sort, k, id), side.fifo + [id], side.next), d, late, {})
  {
    hide Place, NoDup;
    var k := Place(rqs, side.sort, rqs[id].pos);
    SortedInsert(rqs, side.sort, d, id);
    AgedInsert(rqs, side.fifo, late, |side.fifo|, id);
    assert InsertAt(side.fifo, |side.fifo|, id) == side.fifo + [id];
    hide Sorted, Aged;
    InsertAtMembers(side.sort, k, id);
    InsertAtMembers(side.fifo, |side.fifo|, id);
    hide InsertAt;
  }

  lemma EntersAgain(rqs: Rqs, side: Side, d: Dir, late: nat, id: nat)
    requires SideOk(rqs, side, d, late, {id}) && id in rqs && rqs[id].dir == d
    requires forall i | 0 <= i < |side.sort| :: rqs[side.sort[i]].pos != rqs[id].pos
    ensures var k := Place(rqs, side.sort, rqs[id].pos);
            SideOk(rqs, side.(sort := InsertAt(side.sort, k, id)), d, late, {})
  {
    hide Place, NoDup, Aged;
    SortedInsert(rqs, side.sort, d, id);
    hide Sorted, InsertAt;
    InsertAtMembers(side.sort, Place(rqs, side.sort, rqs[id].pos), id);
  }

  lemma AddedSide(rqs: Rqs, side: Side, d: Dir, late: nat, late': nat, id: nat, pos: nat, end: nat)
    requires SideOk(rqs, side, d, late, {}) && late <= late' && id !in rqs && Free(rqs, side.sort, pos)
    ensures var rqs' := rqs[id := Rq(pos, end, d, late')];
            SideOk(rqs', Side(InsertAt(side.sort, Place(rqs, side.sort, pos), id), side.fifo + [id], side.next), d, late', {})
  {
    hide InsertAt, Place, NoDup, Matched;
    assert id !in side.fifo && id !in side.sort;
    hide Aged, Sorted;
    PlaceFrame(rqs, side.sort, pos, id, Rq(pos, end, d, late'));
    SideFrame(rqs, side, d, late, late', {}, id, Rq(pos, end, d, late'));
    EntersNew(rqs[id := Rq(pos, end, d, late')], side, d, late', id);
  }

  lemma AddedInv(t: Tunables, s: State, id: nat, pos: nat, end: nat, d: Dir, now: nat)
    requires Inv(t, s) && id !in s.rqs && s.now <= now
    ensures Inv(t, Added(t, s, id, pos, end, d, now))
  {
    hide Cleared, SideOk, InsertAt, Placed, Place, Free;
    ClearedInv(t, s, d, pos, Read, {});
    var s1 := Cleared(s, d, pos);
    var rq := Rq(pos, end, d, now + Expiry(t, d));
    NewIsNowhere(s1, id);
    SideFrame(s1.rqs, SideOf(s1, Other(d)), Other(d), s1.now + Expiry(t, Other(d)), now + Expiry(t, Other(d)), {}, id, rq);
    AddedSide(s1.rqs, SideOf(s1, d), d, s1.now + Expiry(t, d), now + Expiry(t, d), id, pos, end);
    AddedPlaced(s1, Added(t, s, id, pos, end, d, now), d, id, rq);
  }

  lemma NewIsNowhere(s: State, id: nat)
    requires Placed(s) && id !in s.rqs
    ensures id !in s.read.fifo && id !in s.write.fifo
  {}

  lemma OnOneSide(s: State, d: Dir, id: nat)
    requires Placed(s) && id in SideOf(s, d).fifo
    ensures id in s.rqs && s.rqs[id].dir == d && id !in SideOf(s, Other(d)).fifo
  {}

  /** A change that leaves every request in its place. */
  lemma PlacedFrame(s: State, s': State)
    requires Placed(s) && s'.queue == s.queue && s'.joined == s.joined
    requires s'.read.fifo == s.read.fifo && s'.write.fifo == s.write.fifo
    requires s'.rqs.Keys == s.rqs.Keys && forall id | id in s.rqs :: s'.rqs[id].dir == s.rqs[id].dir
    ensures Placed(s')
  {}

  lemma AddedPlaced(s: State, s': State, d: Dir, id: nat, rq: Rq)
    requires Placed(s) && id !in s.rqs && rq.dir == d && s'.rqs == s.rqs[id := rq] && s'.queue == s.queue && s'.joined == s.joined
    requires SideOf(s', d).fifo == SideOf(s, d).fifo + [id] && SideOf(s', Other(d)).fifo == SideOf(s, Other(d)).fifo
    ensures Placed(s')
  {}

  lemma FrontMergedInv(t: Tunables, s: State, d: Dir, id: nat, pos: nat)
    requires Inv(t, s) && id in s.rqs && id in SideOf(s, d).sort
    ensures Inv(t, FrontMerged(s, d, id, pos))
  {
    hide Cleared, Sorted, Aged, NoDup, InsertAt, Without, Place, Placed, Matched;
    var side := SideOf(s, d);
    var s1 := WithSide(s, d, side.(sort := Without(side.sort, id)));
    TakenOut(t, s, d, id);
    ClearedInv(t, s1, d, pos, d, {id});
    var s2 := Cleared(s1, d, pos);
    var rq := s2.rqs[id].(pos := pos);
    var s3 := s2.(rqs := s2.rqs[id := rq]);
    OutIsInFifo(SideOf(s2, d), id);
    OnOneSide(s2, d, id);
    MovedPos(s2.rqs, SideOf(s2, d), d, s2.now + Expiry(t, d), id, pos);
    SideFrame(s2.rqs, SideOf(s2, Other(d)), Other(d), s2.now + Expiry(t, Other(d)), s2.now + Expiry(t, Other(d)), {}, id, rq);
    PlaceFrame(s2.rqs, SideOf(s2, d).sort, pos, id, rq);
    EntersAgain(s3.rqs, SideOf(s3, d), d, s3.now + Expiry(t, d), id);
    PlacedFrame(s2, FrontMerged(s, d, id, pos));
  }

  lemma OutIsInFifo(side: Side, id: nat)
    requires Matched(side, {id})
    ensures id in side.fifo && id !in side.sort
  {}

  lemma TakenOut(t: Tunables, s: State, d: Dir, id: nat)
    requires Inv(t, s) && id in s.rqs && id in SideOf(s, d).sort
    ensures InvBut(t, WithSide(s, d, SideOf(s, d).(sort := Without(SideOf(s, d).sort, id))), d, {id})
    ensures s.rqs[id].dir == d
  {
    hide SideOk, Placed, Without;
    PlacedFrame(s, WithSide(s, d, SideOf(s, d).(sort := Without(SideOf(s, d).sort, id))));
    SideTakenOut(s.rqs, SideOf(s, d), d, s.now + Expiry(t, d), id);
  }

  lemma SideTakenOut(rqs: Rqs, side: Side, d: Dir, late: nat, id: nat)
    requires SideOk(rqs, side, d, late, {}) && id in side.sort
    ensures SideOk(rqs, side.(sort := Without(side.sort, id)), d, late, {id})
    ensures id in rqs && rqs[id].dir == d
  {
    SortedNoDup(rqs, side.sort, d);
    SortedWithout(rqs, side.sort, d, id);
    hide Aged, NoDup, Without, IndexOf, Sorted;
    InTree(rqs, side, d, late, {}, id);
    WithoutMembers(side.sort, id);
  }

  lemma MovedPos(rqs: Rqs, side: Side, d: Dir, late: nat, id: nat, pos: nat)
    requires SideOk(rqs, side, d, late, {id}) && id in rqs
    ensures SideOk(rqs[id := rqs[id].(pos := pos)], side, d, late, {id})
  {
    hide NoDup;
    assert forall x | x in side.fifo || x in side.sort :: x in rqs;
    SortedFrame(rqs, rqs[id := rqs[id].(pos := pos)], side.sort, d);
    AgedFrame(rqs, rqs[id := rqs[id].(pos := pos)], side.fifo, late, late);
  }

  lemma BackMergedInv(t: Tunables, s: State, id: nat, end: nat)
    requires Inv(t, s) && id in s.rqs
    ensures Inv(t, BackMerged(s, id, end))
  {
    hide SideOk, Placed;
    PlacedFrame(s, BackMerged(s, id, end));
    SideExtended(s.rqs, s.read, Read, s.now + t.readExpire, id, end);
    SideExtended(s.rqs, s.write, Write, s.now + t.writeExpire, id, end);
  }

  lemma SideExtended(rqs: Rqs, side: Side, d: Dir, late: nat, id: nat, end: nat)
    requires SideOk(rqs, side, d, late, {}) && id in rqs
    ensures SideOk(rqs[id := rqs[id].(end := end)], side, d, late, {})
  {
    hide NoDup;
    assert forall x | x in side.fifo || x in side.sort :: x in rqs;
    SortedFrame(rqs, rqs[id := rqs[id].(end := end)], side.sort, d);
    AgedFrame(rqs, rqs[id := rqs[id].(end := end)], side.fifo, late, late);
  }

  /** The FIFO stays ordered when a request takes the place of one that expires sooner. */
  lemma InheritedAged(rqs: Rqs, fifo: seq<nat>, late: nat, id: nat, next: nat, end: nat)
    requires Aged(rqs, fifo, late) && NoDup(fifo) && id in rqs && next in fifo && id != next
    ensures Aged(rqs[id := rqs[id].(end := end, expire := rqs[next].expire)], Inherited(fifo, id, next), late)
  {
    var rest := Without(fifo, id);
    var rqs' := rqs[id := rqs[id].(end := end, expire := rqs[next].expire)];
    WithoutMembers(fifo, id);
    AgedWithout(rqs, fifo, late, id);
    hide NoDup, Without;
    AgedFrame(rqs, rqs', rest, late, late);
    var k := IndexOf(rest, next);
    hide IndexOf;
    AgedInsert(rqs', rest, late, k + 1, id);
  }

  lemma InheritedMembers(fifo: seq<nat>, id: nat, next: nat)
    requires NoDup(fifo) && next in fifo && id in fifo && id != next
    ensures NoDup(Inherited(fifo, id, next)) && forall x :: x in Inherited(fifo, id, next) <==> x in fifo
  {
    WithoutMembers(fifo, id);
    hide NoDup, Without, IndexOf, InsertAt;
    var rest := Without(fifo, id);
    InsertAtMembers(rest, IndexOf(rest, next) + 1, id);
  }

  lemma JoinedSide(rqs: Rqs, side: Side, d: Dir, late: nat, id: nat, next: nat)
    requires SideOk(rqs, side, d, late, {}) && id in side.sort && next in side.sort && id != next
    requires id in rqs && next in rqs && next in side.fifo && NoDup(side.fifo) && rqs[next].expire < rqs[id].expire
    ensures SideOk(rqs[id := rqs[id].(end := rqs[next].end, expire := rqs[next].expire)], side.(fifo := Inherited(side.fifo, id, next)), d, late, {})
  {
    hide NoDup, Inherited;
    InheritedAged(rqs, side.fifo, late, id, next, rqs[next].end);
    InheritedMembers(side.fifo, id, next);
    var rqs' := rqs[id := rqs[id].(end := rqs[next].end, expire := rqs[next].expire)];
    SortedFrame(rqs, rqs', side.sort, d);
    hide Aged, Sorted;
  }

  lemma JoinedPlaced(s: State, d: Dir, id: nat, next: nat)
    requires Placed(s) && id in s.rqs && next in s.rqs && id != next && next in SideOf(s, d).sort && id in SideOf(s, d).fifo
    requires next in SideOf(s, d).fifo && NoDup(SideOf(s, d).fifo)
    ensures Placed(Joined(s, d, id, next))
  {
    hide NoDup, Without, Latter, Inherited, IndexOf, Placed;
    var side := SideOf(s, d);
    InheritedMembers(side.fifo, id, next);
    WithoutMembers(Inherited(side.fifo, id, next), next);
    WithoutMembers(side.fifo, next);
    PlacedAway(s, Joined(s, d, id, next), d, next);
  }

  lemma PlacedAway(s: State, s': State, d: Dir, next: nat)
    requires Placed(s) && s'.queue == s.queue && s'.joined == s.joined + {next} && next in SideOf(s, d).fifo
    requires forall x :: x in SideOf(s', d).fifo <==> x in SideOf(s, d).fifo && x != next
    requires SideOf(s', Other(d)).fifo == SideOf(s, Other(d)).fifo
    requires s'.rqs.Keys == s.rqs.Keys && forall x | x in s.rqs :: s'.rqs[x].dir == s.rqs[x].dir
    ensures Placed(s')
  {}

  lemma JoinedInv(t: Tunables, s: State, d: Dir, id: nat, next: nat)
    requires Inv(t, s) && id in SideOf(s, d).sort && next in SideOf(s, d).sort && id != next
    requires id in s.rqs && next in s.rqs && next in SideOf(s, d).fifo && NoDup(SideOf(s, d).fifo)
    ensures Inv(t, Joined(s, d, id, next))
  {
    hide SideOk, Placed, NoDup, Without, Latter, Inherited;
    var side, late := SideOf(s, d), s.now + Expiry(t, d);
    var a, b := s.rqs[id], s.rqs[next];
    InTree(s.rqs, side, d, late, {}, id);
    OnOneSide(s, d, id);
    JoinedPlaced(s, d, id, next);
    var rq := a.(end := b.end, expire := if b.expire < a.expire then b.expire else a.expire);
    SideFrame(s.rqs, SideOf(s, Other(d)), Other(d), s.now + Expiry(t, Other(d)), s.now + Expiry(t, Other(d)), {}, id, rq);
    if b.expire < a.expire {
      JoinedSide(s.rqs, side, d, late, id, next);
      RemovedOk(s.rqs[id := rq], side.(fifo := Inherited(side.fifo, id, next)), d, late, {}, next);
    } else {
      assert rq == a.(end := b.end);
      SideExtended(s.rqs, side, d, late, id, b.end);
      RemovedOk(s.rqs[id := rq], side, d, late, {}, next);
    }
  }

  /** What is chosen is in the tree of its direction. */
  lemma ChoiceInTree(t: Tunables, s: State, now: nat)
    requires Inv(t, s)
    ensures HeadsKnown(s)
    ensures var c := Choose(t, s, now); c.Choice? ==> c.id in s.rqs && c.id in SideOf(s, c.dir).sort
    ensures Choose(t, s, now).Nothing? <==> s.read.fifo == [] && s.write.fifo == []
  {
    hide NoDup, Sorted, Placed;
    assert s.read.fifo != [] ==> s.read.fifo[0] in s.read.fifo;
    assert s.write.fifo != [] ==> s.write.fifo[0] in s.write.fifo;
  }

  lemma LaterInv(t: Tunables, s: State, now: nat, starved: nat, batching: nat)
    requires Inv(t, s) && s.now <= now && starved <= t.starve
    ensures Inv(t, s.(now := now, starved := starved, batching := batching))
  {
    hide NoDup, Sorted, Matched, Placed;
    PlacedFrame(s, s.(now := now, starved := starved, batching := batching));
  }

  lemma DispatchedInv(t: Tunables, s: State, now: nat)
    requires Inv(t, s) && s.now <= now
    requires HeadsKnown(s)
    requires var c := Choose(t, s, now); c.Choice? ==> c.id in s.rqs && c.id in SideOf(s, c.dir).sort
    ensures Inv(t, Dispatched(s, Choose(t, s, now), now))
  {
    hide SideOk, Placed;
    var c := Choose(t, s, now);
    var s1 := s.(starved := Starved(s, c), batching := if c.Nothing? then s.batching else if c.goesOn then s.batching + 1 else 1, now := now);
    LaterInv(t, s, now, s1.starved, s1.batching);
    if c.Choice? {
      MovedInv(t, s1, c.dir, c.id, Read, {});
    }
  }
}
