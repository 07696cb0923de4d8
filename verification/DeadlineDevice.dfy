/** deadline-iosched.c in place: the methods that change struct deadline_data, each proved against
    the operation of module Deadline that it performs. */
module DeadlineDevice {
  import opened Options
  import opened Lists
  import opened Deadline

  lemma PlaceIs(rqs: Rqs, sort: seq<nat>, d: Dir, pos: nat, k: nat)
    requires Sorted(rqs, sort, d) && k <= |sort|
    requires forall i | 0 <= i < k :: rqs[sort[i]].pos < pos
    requires forall i | k <= i < |sort| :: rqs[sort[i]].pos >= pos
    ensures Place(rqs, sort, pos) == k
  {
    hide Place;
    PlaceSplits(rqs, sort, d, pos);
    if k > 0 { assert rqs[sort[k - 1]].pos < pos; }
    if k < |sort| { assert rqs[sort[k]].pos >= pos; }
  }

  /** What the loop of deadline_add_rq_rb meets: no alias, or one, and none once it is gone. */
  lemma ClearedTree(t: Tunables, s: State, d: Dir, pos: nat, out: set<nat>)
    requires InvBut(t, s, d, out)
    ensures Sorted(s.rqs, SideOf(s, d).sort, d)
    ensures var alias := Alias(s.rqs, SideOf(s, d).sort, pos); var s1 := Cleared(s, d, pos);
            && s1 == (if alias.Some? then Moved(s, d, alias.value) else s)
            && Sorted(s1.rqs, SideOf(s1, d).sort, d) && Alias(s1.rqs, SideOf(s1, d).sort, pos) == None
  {
    hide SideOk, Placed, Alias, Moved, Sorted, Free;
    ClearedInv(t, s, d, pos, d, out);
    var s1 := Cleared(s, d, pos);
    SideSorted(s.rqs, SideOf(s, d), d, s.now + Expiry(t, d), out);
    SideSorted(s1.rqs, SideOf(s1, d), d, s1.now + Expiry(t, d), out);
    FreeHasNoAlias(s1.rqs, SideOf(s1, d).sort, d, pos);
  }

  lemma InvParts(t: Tunables, s: State)
    requires Inv(t, s)
    ensures forall d :: SideOk(s.rqs, SideOf(s, d), d, s.now + Expiry(t, d), {})
  {}

  lemma MovedQueue(s: State, d: Dir, id: nat)
    requires id in s.rqs && id in SideOf(s, d).sort
    ensures Moved(s, d, id).queue == s.queue + [id]
  {}

  lemma FreeHasNoAlias(rqs: Rqs, sort: seq<nat>, d: Dir, pos: nat)
    requires Sorted(rqs, sort, d) && Free(rqs, sort, pos)
    ensures Alias(rqs, sort, pos) == None
  {
    hide Alias;
    AliasIffTaken(rqs, sort, d, pos);
  }

  /** The place of a node in its tree. */
  method FindIndex(s: seq<nat>, x: nat) returns (i: nat)
    requires x in s
    ensures i == IndexOf(s, x)
  {
    i := 0;
    while s[i] != x
      invariant i < |s| && x in s[i..] && i + IndexOf(s[i..], x) == IndexOf(s, x)
      decreases |s| - i
    {
      assert s[i..][1..] == s[i + 1..];
      i := i + 1;
    }
  }

  class DeadlineData {
    const t: Tunables
    var rqs: Rqs            // the requests, with what the scheduler reads of them
    var read: Side
    var write: Side
    var batching: nat
    var starved: nat
    var lastSector: nat
    var queue: seq<nat>     // the queue's dispatch list
    var joined: set<nat>
    var now: nat

    ghost function Now(): State
      reads this
    {
      State(rqs, read, write, batching, starved, lastSector, queue, joined, now)
    }

    ghost predicate Valid()
      reads this
    {
      Inv(t, Now())
    }

    constructor (tunables: Tunables, jiffies: nat)
      ensures Valid() && t == tunables && read.fifo == [] && write.fifo == [] && queue == []
    {
      t := tunables;
      rqs, read, write := map[], Side([], [], None), Side([], [], None);
      batching, starved, lastSector, queue, joined, now := 0, 0, 0, [], {}, jiffies;
    }

    method SetSide(d: Dir, side: Side)
      modifies this`read, this`write
      ensures Now() == WithSide(old(Now()), d, side)
    {
      if d == Read { read := side; } else { write := side; }
    }

    /** elv_rb_add: a descent through a tree of any shape, to the request already at the sector or
        to the place of the new one. */
    method RbAdd(d: Dir, id: nat, pos: nat) returns (alias: Option<nat>)
      requires Sorted(rqs, SideOf(Now(), d).sort, d)
      modifies this`read, this`write
      ensures alias == Alias(rqs, SideOf(old(Now()), d).sort, pos)
      ensures Now() == if alias.Some? then old(Now()) else TreeAdded(old(Now()), d, id, pos)
    {
      hide Place, InsertAt;
      var side := if d == Read then read else write;
      var sort := side.sort;
      var lo, hi := 0, |sort|;
      while lo < hi
        invariant lo <= hi <= |sort|
        invariant forall i | 0 <= i < lo :: rqs[sort[i]].pos < pos
        invariant forall i | hi <= i < |sort| :: rqs[sort[i]].pos > pos
      {
        var mid :| lo <= mid < hi;
        if pos < rqs[sort[mid]].pos {
          hi := mid;
        } else if pos > rqs[sort[mid]].pos {
          lo := mid + 1;
        } else {
          PlaceIs(rqs, sort, d, pos, mid);
          return Some(sort[mid]);
        }
      }
      PlaceIs(rqs, sort, d, pos, lo);
      SetSide(d, side.(sort := sort[..lo] + [id] + sort[lo..]));
      assert InsertAt(sort, lo, id) == sort[..lo] + [id] + sort[lo..] by { InsertAtDef(sort, lo, id); }
      return None;
    }

    /** deadline_remove_request and deadline_del_rq_rb */
    method RemoveRequest(d: Dir, id: nat)
      requires id in SideOf(Now(), d).sort
      modifies this`read, this`write
      ensures Now() == WithSide(old(Now()), d, Removed(SideOf(old(Now()), d), id))
    {
      var side := if d == Read then read else write;
      var i := FindIndex(side.sort, id);
      if side.next == Some(id) {
        side := side.(next := if i + 1 < |side.sort| then Some(side.sort[i + 1]) else None);
      }
      SetSide(d, Side(side.sort[..i] + side.sort[i + 1..], Without(side.fifo, id), side.next));
    }

    /** deadline_move_request */
    method MoveRequest(d: Dir, id: nat)
      requires id in rqs && id in SideOf(Now(), d).sort
      modifies this
      ensures Now() == Moved(old(Now()), d, id)
    {
      hide Removed;
      var sort := (if d == Read then read else write).sort;
      read := read.(next := None);
      write := write.(next := None);
      var i := FindIndex(sort, id);
      SetSide(d, (if d == Read then read else write).(next := if i + 1 < |sort| then Some(sort[i + 1]) else None));
      lastSector := rqs[id].end;
      RemoveRequest(d, id);
      queue := queue + [id];
    }

    /** deadline_add_rq_rb */
    method AddRqRb(d: Dir, id: nat, pos: nat, ghost out: set<nat>)
      requires InvBut(t, Now(), d, out)
      modifies this
      ensures Now() == TreeAdded(Cleared(old(Now()), d, pos), d, id, pos)
    {
      hide InvBut, SideOk, TreeAdded, Alias, Cleared, Moved, Sorted;
      ghost var s0 := Now();
      ghost var s1 := Cleared(s0, d, pos);
      ClearedTree(t, s0, d, pos, out);
      var alias := RbAdd(d, id, pos);
      while alias.Some?
        invariant if alias.Some? then Now() == s0 && alias == Alias(s0.rqs, SideOf(s0, d).sort, pos) else Now() == TreeAdded(s1, d, id, pos)
        decreases alias.Some?
      {
        MoveRequest(d, alias.value);
        alias := RbAdd(d, id, pos);
      }
    }

    /** deadline_add_request */
    method AddRequest(id: nat, pos: nat, end: nat, d: Dir, jiffies: nat)
      requires Valid() && id !in rqs && now <= jiffies
      modifies this
      ensures Valid() && Now() == Added(t, old(Now()), id, pos, end, d, jiffies)
    {
      hide SideOk, Placed, TreeAdded, Cleared;
      AddedInv(t, Now(), id, pos, end, d, jiffies);
      AddRqRb(d, id, pos, {});
      rqs := rqs[id := Rq(pos, end, d, jiffies + Expiry(t, d))];
      now := jiffies;
      var side := if d == Read then read else write;
      SetSide(d, side.(fifo := side.fifo + [id]));
    }

    /** deadline_merged_request for a merge at the front */
    method MergedRequest(id: nat, pos: nat)
      requires Valid() && id in rqs && id in SideOf(Now(), rqs[id].dir).sort
      modifies this
      ensures Valid() && Now() == FrontMerged(old(Now()), old(rqs)[id].dir, id, pos)
    {
      hide SideOk, Placed, InsertAt, Place, Cleared, Without;
      var d := rqs[id].dir;
      FrontMergedInv(t, Now(), d, id, pos);
      TakenOut(t, Now(), d, id);
      var side := if d == Read then read else write;
      SetSide(d, side.(sort := Without(side.sort, id)));
      ClearedInv(t, Now(), d, pos, d, {id});
      AddRqRb(d, id, pos, {id});
      rqs := rqs[id := rqs[id].(pos := pos)];
    }

    /** deadline_merged_requests */
    method MergedRequests(id: nat, next: nat)
      requires Valid() && id in rqs && next in rqs && id != next && rqs[id].dir == rqs[next].dir
      requires id in SideOf(Now(), rqs[id].dir).sort && next in SideOf(Now(), rqs[id].dir).sort
      modifies this
      ensures Valid()
      ensures next in SideOf(old(Now()), old(rqs)[id].dir).fifo && NoDup(SideOf(old(Now()), old(rqs)[id].dir).fifo)
      ensures Now() == Joined(old(Now()), old(rqs)[id].dir, id, next)
    {
      hide InvBut, SideOk, Placed, Removed, NoDup, Without, IndexOf;
      InvParts(t, Now());
      var d := rqs[id].dir;
      ghost var late := now + Expiry(t, d);
      InTree(rqs, SideOf(Now(), d), d, late, {}, id);
      InTree(rqs, SideOf(Now(), d), d, late, {}, next);
      JoinedInv(t, Now(), d, id, next);
      var rq := rqs[id].(end := rqs[next].end);
      var side := if d == Read then read else write;
      if rqs[next].expire < rq.expire {
        WithoutMembers(side.fifo, id);
        var rest := Without(side.fifo, id);
        var i := FindIndex(rest, next);
        SetSide(d, side.(fifo := rest[..i + 1] + [id] + rest[i + 1..]));
        rq := rq.(expire := rqs[next].expire);
      }
      rqs := rqs[id := rq];
      RemoveRequest(d, next);
      joined := joined + {next};
    }

    /** deadline_dispatch_requests */
    method DispatchRequests(jiffies: nat) returns (found: bool)
      requires Valid() && now <= jiffies
      modifies this
      ensures Valid() && old(HeadsKnown(Now()))
      ensures var c := old(Choose(t, Now(), jiffies));
              && found == c.Choice?
              && (found ==> c.id in old(rqs) && c.id in SideOf(old(Now()), c.dir).sort && queue == old(queue) + [c.id])
              && Now() == Dispatched(old(Now()), c, jiffies)
    {
      hide InvBut, Removed, Moved;
      ChoiceInTree(t, Now(), jiffies);
      DispatchedInv(t, Now(), jiffies);
      ghost var c := Choose(t, Now(), jiffies);
      now := jiffies;
      var anyRead, anyWrite := read.fifo != [], write.fifo != [];
      var next := if write.next.Some? then write.next else read.next;
      var d := if write.next.Some? then Write else Read;
      if next.None? || batching >= t.batch {
        if !anyRead && !anyWrite { return false; }
        if anyRead && !(anyWrite && starved >= t.starve) {
          if anyWrite { starved := starved + 1; }
          d := Read;
        } else {
          starved := 0;
          d := Write;
        }
        var side := if d == Read then read else write;
        if rqs[side.fifo[0]].expire < jiffies || side.next.None? {
          next := Some(side.fifo[0]);
        } else {
          next := side.next;
        }
        batching := 0;
      }
      assert c == Choice(next.value, d, c.goesOn);
      batching := batching + 1;
      MovedQueue(Now(), d, next.value);
      MoveRequest(d, next.value);
      return true;
    }
  }
}
