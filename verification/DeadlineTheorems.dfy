/** What holds of every run of the deadline scheduler. */
module DeadlineTheorems {
  import opened Arithmetic
  import opened Options
  import opened Lists
  import opened Deadline

  datatype Action =
    | Add(id: nat, pos: nat, end: nat, dir: Dir, now: nat)
    | Back(id: nat, end: nat)
    | Front(id: nat, pos: nat)
    | Join(id: nat, next: nat)
    | Dispatch(now: nat)

  predicate InItsTree(s: State, id: nat) { id in s.rqs && id in SideOf(s, s.rqs[id].dir).sort }

  predicate Enabled(s: State, a: Action) {
    match a
    case Add(id, _, _, _, now) => id !in s.rqs && s.now <= now
    case Back(id, _) => InItsTree(s, id)
    case Front(id, _) => InItsTree(s, id)
    case Join(id, next) => InItsTree(s, id) && InItsTree(s, next) && id != next && s.rqs[id].dir == s.rqs[next].dir
    case Dispatch(now) => s.now <= now
  }

  function Start(now: nat): State {
    State(map[], Side([], [], None), Side([], [], None), 0, 0, 0, [], {}, now)
  }

  lemma StartInv(t: Tunables, now: nat)
    ensures Inv(t, Start(now))
  {}

  lemma InFifo(t: Tunables, s: State, id: nat)
    requires Inv(t, s) && InItsTree(s, id)
    ensures var d := s.rqs[id].dir; id in SideOf(s, d).fifo && NoDup(SideOf(s, d).fifo)
  {
    hide SideOk, Placed;
    var d := s.rqs[id].dir;
    InTree(s.rqs, SideOf(s, d), d, s.now + Expiry(t, d), {}, id);
  }

  function Picked(t: Tunables, s: State, a: Action): Choice
    requires HeadsKnown(s)
  {
    if a.Dispatch? then Choose(t, s, a.now) else Nothing
  }

  /** One operation, from a state where the invariant holds to another. */
  ghost function Apply(t: Tunables, s: State, a: Action): (s': State)
    requires Inv(t, s) && Enabled(s, a)
    ensures Inv(t, s')
  {
    match a
    case Add(id, pos, end, d, now) => AddedInv(t, s, id, pos, end, d, now); Added(t, s, id, pos, end, d, now)
    case Back(id, end) => BackMergedInv(t, s, id, end); BackMerged(s, id, end)
    case Front(id, pos) => FrontMergedInv(t, s, s.rqs[id].dir, id, pos); FrontMerged(s, s.rqs[id].dir, id, pos)
    case Join(id, next) => InFifo(t, s, next); JoinedInv(t, s, s.rqs[id].dir, id, next); Joined(s, s.rqs[id].dir, id, next)
    case Dispatch(now) => ChoiceInTree(t, s, now); DispatchedInv(t, s, now); Dispatched(s, Choose(t, s, now), now)
  }

  ghost predicate Runs(t: Tunables, s: State, run: seq<Action>, end: State)
    requires Inv(t, s)
    decreases |run|
  {
    if run == [] then end == s else Enabled(s, run[0]) && Runs(t, Apply(t, s, run[0]), run[1..], end)
  }

  lemma {:induction false} RunInv(t: Tunables, s: State, run: seq<Action>, end: State)
    requires Inv(t, s) && Runs(t, s, run, end)
    ensures Inv(t, end)
    decreases |run|
  {
    hide Inv, Apply, Enabled;
    if run != [] {
      RunInv(t, Apply(t, s, run[0]), run[1..], end);
    }
  }

  /** In every state the scheduler can reach: a request is in a tree iff it is in that FIFO, the tree
      has strictly ascending start sectors and the FIFO ascending expiry times, at most one next_rq
      is set and it is in its tree, and no request is dispatched twice. */
  lemma Reachable(t: Tunables, now: nat, run: seq<Action>, s: State, d: Dir, i: nat, j: nat)
    requires Inv(t, Start(now)) && Runs(t, Start(now), run, s)
    ensures var side := SideOf(s, d);
            && (forall x :: x in side.sort <==> x in side.fifo)
            && (i < j < |side.sort| ==> side.sort[i] in s.rqs && side.sort[j] in s.rqs && s.rqs[side.sort[i]].pos < s.rqs[side.sort[j]].pos)
            && (i < j < |side.fifo| ==> side.fifo[i] in s.rqs && side.fifo[j] in s.rqs && s.rqs[side.fifo[i]].expire <= s.rqs[side.fifo[j]].expire)
            && (side.next.Some? ==> side.next.value in side.sort && SideOf(s, Other(d)).next.None?)
    ensures NoDup(s.queue) && forall x | x in s.queue :: x !in s.read.sort && x !in s.write.sort
  {
    RunInv(t, Start(now), run, s);
    hide Runs;
  }

  // ----- expired requests

  /** When a new batch starts in a direction where some request has expired, it starts with one
      that expires no later than any other there. */
  lemma NewBatchServesEarliest(t: Tunables, s: State, now: nat, x: nat, y: nat)
    requires Inv(t, s) && HeadsKnown(s)
    requires var c := Choose(t, s, now);
             && c.Choice? && !c.goesOn
             && x in SideOf(s, c.dir).sort && x in s.rqs && s.rqs[x].expire < now
             && y in SideOf(s, c.dir).sort && y in s.rqs
    ensures var c := Choose(t, s, now); c.id in s.rqs && s.rqs[c.id].expire <= s.rqs[y].expire && s.rqs[c.id].expire < now
  {
    hide SideOk, Placed;
    var c := Choose(t, s, now);
    HeadIsEarliest(t, s, c.dir, x);
    HeadIsEarliest(t, s, c.dir, y);
  }

  lemma HeadIsEarliest(t: Tunables, s: State, d: Dir, x: nat)
    requires Inv(t, s) && x in SideOf(s, d).sort
    ensures var fifo := SideOf(s, d).fifo;
            fifo != [] && fifo[0] in s.rqs && x in s.rqs && s.rqs[fifo[0]].expire <= s.rqs[x].expire
  {
    hide Placed, NoDup, Sorted;
    var fifo := SideOf(s, d).fifo;
    assert x in fifo;
    var i :| 0 <= i < |fifo| && fifo[i] == x;
  }

  /** A batch that goes on takes the nearest request above the one dispatched before, if nothing was
      added or merged in between. */
  lemma BatchGoesUp(t: Tunables, s: State, now: nat, y: nat)
    requires Inv(t, s) && s.now <= now && HeadsKnown(s) && Choose(t, s, now).Choice?
    requires var c := Choose(t, s, now); c.id in s.rqs && y in s.rqs && y in SideOf(s, c.dir).sort && s.rqs[c.id].pos < s.rqs[y].pos
    ensures var c, s' := Choose(t, s, now), Apply(t, s, Dispatch(now));
            var next := SideOf(s', c.dir).next;
            && next.Some? && next.value in s.rqs && s.rqs[c.id].pos < s.rqs[next.value].pos <= s.rqs[y].pos
            && SideOf(s', Other(c.dir)).next.None?
  {
    hide SideOk, Placed, Latter, Sorted, Choose, Dispatched;
    var c := Choose(t, s, now);
    ChoiceInTree(t, s, now);
    var d := c.dir;
    var sort := SideOf(s, d).sort;
    SideSorted(s.rqs, SideOf(s, d), d, s.now + Expiry(t, d), {});
    LatterIsNearest(s.rqs, sort, d, c.id, y);
    LatterInTree(s.rqs, sort, d, c.id);
    DispatchNext(s, c, now);
  }

  lemma DispatchNext(s: State, c: Choice, now: nat)
    requires c.Choice? && c.id in s.rqs && c.id in SideOf(s, c.dir).sort && Latter(SideOf(s, c.dir).sort, c.id) != Some(c.id)
    ensures SideOf(Dispatched(s, c, now), c.dir).next == Latter(SideOf(s, c.dir).sort, c.id)
    ensures SideOf(Dispatched(s, c, now), Other(c.dir)).next.None?
  {
    hide Latter, Without;
  }

  // ----- writes are not starved

  function BatchSize(t: Tunables): nat { if t.batch == 0 then 1 else t.batch }

  function Min(a: nat, b: nat): nat { if a < b then a else b }

  /** How many more reads can be picked while a write waits, after v reads passed waiting writes and
      n requests of the batch. */
  function Left(t: Tunables, v: nat, n: nat): nat {
    (t.starve - Min(v, t.starve)) * BatchSize(t) + (BatchSize(t) - Min(n, BatchSize(t)))
  }

  function Patience(t: Tunables, s: State): nat { Left(t, s.starved, s.batching) }

  lemma BatchCosts(t: Tunables, v: nat, n: nat)
    requires n < t.batch
    ensures Left(t, v, n + 1) < Left(t, v, n)
  {}

  lemma NewBatchCosts(t: Tunables, v: nat, n: nat)
    requires v < t.starve
    ensures Left(t, v + 1, 1) < Left(t, v, n)
  {
    var w, size := t.starve, BatchSize(t);
    assert (w - v) * size == (w - (v + 1)) * size + size;
  }

  lemma LeftBound(t: Tunables, v: nat, n: nat)
    ensures Left(t, v, n) <= (t.starve + 1) * BatchSize(t)
  {
    var w, size := t.starve, BatchSize(t);
    ScaleBy(size, w - Min(v, w), w);
    assert (w + 1) * size == w * size + size;
  }

  lemma DispatchCounts(s: State, c: Choice, now: nat)
    requires c.Choice? && c.id in s.rqs && c.id in SideOf(s, c.dir).sort
    ensures Dispatched(s, c, now).starved == Starved(s, c)
    ensures Dispatched(s, c, now).batching == if c.goesOn then s.batching + 1 else 1
  {
    hide Removed, Latter;
  }

  /** A dispatch that picks a read while a write waits uses up patience. */
  lemma ReadPickCosts(t: Tunables, s: State, now: nat)
    requires Inv(t, s) && s.now <= now && s.write.fifo != [] && HeadsKnown(s)
    requires Choose(t, s, now).Choice? && Choose(t, s, now).dir == Read
    ensures Patience(t, Apply(t, s, Dispatch(now))) < Patience(t, s)
  {
    hide SideOk, Placed, Left, Dispatched;
    ChoiceInTree(t, s, now);
    var c := Choose(t, s, now);
    DispatchCounts(s, c, now);
    if c.goesOn {
      BatchCosts(t, s.starved, s.batching);
    } else {
      NewBatchCosts(t, s.starved, s.batching);
    }
  }

  /** No other operation does. */
  lemma OthersAreFree(t: Tunables, s: State, a: Action)
    requires Inv(t, s) && Enabled(s, a) && !a.Dispatch?
    ensures Patience(t, Apply(t, s, a)) == Patience(t, s)
    ensures Apply(t, s, a).starved == s.starved && Apply(t, s, a).batching == s.batching
  {
    hide SideOk, Placed, Removed, Alias, InsertAt, Place, Inherited, Left;
    var s' := Apply(t, s, a);
    assert s'.batching == s.batching && s'.starved == s.starved;
  }

  /** A run in which some write always waits and no dispatch picks a write. */
  ghost predicate WritesWait(t: Tunables, s: State, run: seq<Action>)
    requires Inv(t, s)
    decreases |run|
  {
    run == [] ||
    ( ChoiceInTree(t, s, s.now);
      && s.write.fifo != [] && Enabled(s, run[0])
      && (Picked(t, s, run[0]).Choice? ==> Picked(t, s, run[0]).dir == Read)
      && WritesWait(t, Apply(t, s, run[0]), run[1..]))
  }

  ghost function Picks(run: seq<Action>): nat {
    if run == [] then 0 else (if run[0].Dispatch? then 1 else 0) + Picks(run[1..])
  }

  lemma {:induction false} PicksWithinPatience(t: Tunables, s: State, run: seq<Action>)
    requires Inv(t, s) && WritesWait(t, s, run)
    ensures Picks(run) <= Patience(t, s)
    decreases |run|
  {
    if run != [] {
      var a := run[0];
      if a.Dispatch? {
        ChoiceInTree(t, s, a.now);
        ReadPickCosts(t, s, a.now);
      } else {
        OthersAreFree(t, s, a);
      }
      hide Inv, Apply, Patience, Enabled;
      PicksWithinPatience(t, Apply(t, s, a), run[1..]);
    }
  }

  /** While a write waits, at most (writes_starved + 1) * max(fifo_batch, 1) dispatches in a row pick
      reads, whatever is added, merged or moved out of the way in between. */
  lemma WritesNotStarved(t: Tunables, s: State, run: seq<Action>)
    requires Inv(t, s) && WritesWait(t, s, run)
    ensures Picks(run) <= (t.starve + 1) * BatchSize(t)
  {
    hide Inv, WritesWait, Picks, Left;
    PicksWithinPatience(t, s, run);
    LeftBound(t, s.starved, s.batching);
  }

  // ----- reads go first

  /** Which direction a new batch takes: reads, unless none wait or writes have been passed over
      writes_starved times. */
  lemma NewBatchDirection(t: Tunables, s: State, now: nat)
    requires HeadsKnown(s) && !Running(t, s)
    ensures var c := Choose(t, s, now);
            && (c.Nothing? <==> s.read.fifo == [] && s.write.fifo == [])
            && (c.Choice? ==> !c.goesOn)
            && (c.Choice? && c.dir == Write ==> s.write.fifo != [] && (s.read.fifo == [] || s.starved >= t.starve))
            && (c.Choice? && c.dir == Read ==> s.read.fifo != [] && (s.write.fifo == [] || s.starved < t.starve))
  {
    hide NewBatch;
    NewBatchIsNew(s, Read, now);
    NewBatchIsNew(s, Write, now);
  }

  lemma NewBatchIsNew(s: State, d: Dir, now: nat)
    requires HeadsKnown(s)
    ensures SideOf(s, d).fifo != [] ==> var c := NewBatch(s, d, now); c.Choice? && c.dir == d && !c.goesOn
  {}

  /** How many read batches began while a write waited, since the last batch of writes. */
  ghost function PassedOver(t: Tunables, s: State, run: seq<Action>, n: nat): nat
    requires Inv(t, s)
    decreases |run|
  {
    if run == [] || !Enabled(s, run[0]) then n
    else
      ChoiceInTree(t, s, s.now);
      var c := Picked(t, s, run[0]);
      var n' := if c.Nothing? || c.goesOn then n
                else if c.dir == Write then 0 else if s.write.fifo != [] then n + 1 else n;
      PassedOver(t, Apply(t, s, run[0]), run[1..], n')
  }

  lemma StarvedCounts(t: Tunables, s: State, a: Action)
    requires Inv(t, s) && Enabled(s, a)
    ensures HeadsKnown(s)
    ensures Apply(t, s, a).starved == Starved(s, Picked(t, s, a))
  {
    ChoiceInTree(t, s, s.now);
    if a.Dispatch? {
      DispatchStarves(t, s, a.now);
    } else {
      OthersAreFree(t, s, a);
    }
    hide Inv, Apply, Choose, Enabled;
  }

  lemma DispatchStarves(t: Tunables, s: State, now: nat)
    requires Inv(t, s) && Enabled(s, Dispatch(now)) && HeadsKnown(s)
    ensures Apply(t, s, Dispatch(now)).starved == Starved(s, Choose(t, s, now))
  {
    ChoiceInTree(t, s, now);
    hide Inv, Dispatched, Choose;
    var c := Choose(t, s, now);
    if c.Choice? { DispatchCounts(s, c, now); } else { NothingCounts(s, now); }
  }

  lemma NothingCounts(s: State, now: nat)
    ensures Dispatched(s, Nothing, now).starved == s.starved && Dispatched(s, Nothing, now).batching == s.batching
  {}

  lemma {:induction false} StarvedIsPassedOver(t: Tunables, s: State, run: seq<Action>, end: State)
    requires Inv(t, s) && Runs(t, s, run, end)
    ensures end.starved == PassedOver(t, s, run, s.starved)
    decreases |run|
  {
    hide Inv, Apply, Enabled, Picked;
    if run != [] {
      StarvedCounts(t, s, run[0]);
      StarvedIsPassedOver(t, Apply(t, s, run[0]), run[1..], end);
    }
  }

  /** In every state the scheduler can reach, when no batch runs and a read waits, the next request is a
      read unless a write waits too and writes_starved read batches have passed waiting writes. */
  lemma ReadsGoFirst(t: Tunables, start: nat, run: seq<Action>, s: State, now: nat)
    requires Inv(t, Start(start)) && Runs(t, Start(start), run, s)
    requires HeadsKnown(s) && !Running(t, s) && s.read.fifo != []
    ensures var c := Choose(t, s, now);
            && c.Choice?
            && (c.dir == Read <==> s.write.fifo == [] || PassedOver(t, Start(start), run, 0) < t.starve)
  {
    StarvedIsPassedOver(t, Start(start), run, s);
    hide Inv, Runs, Running, Choose;
    NewBatchDirection(t, s, now);
  }

  /** A new batch goes on from next_rq unless the oldest request of its direction has expired; without a
      next_rq it starts with the oldest. */
  lemma NewBatchGoesOn(t: Tunables, s: State, now: nat)
    requires Inv(t, s) && HeadsKnown(s)
    requires var c := Choose(t, s, now); c.Choice? && !c.goesOn
    ensures var c := Choose(t, s, now); var side := SideOf(s, c.dir);
            && (side.next.Some? && (forall x | x in side.sort && x in s.rqs :: now <= s.rqs[x].expire) ==> c.id == side.next.value)
            && (side.next.None? ==> c.id in s.rqs && forall x | x in side.sort && x in s.rqs :: s.rqs[c.id].expire <= s.rqs[x].expire)
  {
    hide SideOk, Placed;
    var c := Choose(t, s, now);
    var side := SideOf(s, c.dir);
    HeadInTree(t, s, c.dir);
    forall x | x in side.sort && x in s.rqs
      ensures side.fifo[0] in s.rqs && s.rqs[side.fifo[0]].expire <= s.rqs[x].expire
    {
      HeadIsEarliest(t, s, c.dir, x);
    }
  }

  lemma HeadInTree(t: Tunables, s: State, d: Dir)
    requires Inv(t, s) && SideOf(s, d).fifo != []
    ensures SideOf(s, d).fifo[0] in SideOf(s, d).sort && SideOf(s, d).fifo[0] in s.rqs
  {
    hide Placed, NoDup, Sorted;
    assert SideOf(s, d).fifo[0] in SideOf(s, d).fifo;
  }

  // ----- reads are not starved either

  /** How many more writes can be picked while a read waits. */
  function WritesLeft(t: Tunables, s: State): nat {
    (BatchSize(t) - Min(s.batching, BatchSize(t))) + if s.starved < t.starve then 0 else BatchSize(t)
  }

  /** A dispatch that picks a write while a read waits uses them up. */
  lemma WritePickCosts(t: Tunables, s: State, now: nat)
    requires Inv(t, s) && s.now <= now && s.read.fifo != [] && HeadsKnown(s) && t.starve > 0
    requires Choose(t, s, now).Choice? && Choose(t, s, now).dir == Write
    ensures WritesLeft(t, Apply(t, s, Dispatch(now))) < WritesLeft(t, s)
  {
    hide SideOk, Placed, Dispatched;
    ChoiceInTree(t, s, now);
    DispatchCounts(s, Choose(t, s, now), now);
  }

  lemma OthersLeave(t: Tunables, s: State, a: Action)
    requires Inv(t, s) && Enabled(s, a) && !a.Dispatch?
    ensures WritesLeft(t, Apply(t, s, a)) == WritesLeft(t, s)
  {
    hide SideOk, Placed, Removed, Alias, InsertAt, Place, Inherited;
    var s' := Apply(t, s, a);
    assert s'.batching == s.batching && s'.starved == s.starved;
  }

  /** A run in which some read always waits and no dispatch picks a read. */
  ghost predicate ReadsWait(t: Tunables, s: State, run: seq<Action>)
    requires Inv(t, s)
    decreases |run|
  {
    run == [] ||
    ( ChoiceInTree(t, s, s.now);
      && s.read.fifo != [] && Enabled(s, run[0])
      && (Picked(t, s, run[0]).Choice? ==> Picked(t, s, run[0]).dir == Write)
      && ReadsWait(t, Apply(t, s, run[0]), run[1..]))
  }

  lemma {:induction false} PicksWithinWritesLeft(t: Tunables, s: State, run: seq<Action>)
    requires Inv(t, s) && ReadsWait(t, s, run) && t.starve > 0
    ensures Picks(run) <= WritesLeft(t, s)
    decreases |run|
  {
    if run != [] {
      var a := run[0];
      if a.Dispatch? {
        ChoiceInTree(t, s, a.now);
        WritePickCosts(t, s, a.now);
      } else {
        OthersLeave(t, s, a);
      }
      hide Inv, Apply, WritesLeft, Enabled;
      PicksWithinWritesLeft(t, Apply(t, s, a), run[1..]);
    }
  }

  /** If writes_starved is positive at most 2 * max(fifo_batch, 1) dispatches in a row pick writes while
      a read waits. */
  lemma ReadsNotStarved(t: Tunables, s: State, run: seq<Action>)
    requires Inv(t, s) && ReadsWait(t, s, run) && t.starve > 0
    ensures Picks(run) <= 2 * BatchSize(t)
  {
    hide Inv, ReadsWait, Picks;
    PicksWithinWritesLeft(t, s, run);
  }

  /** If it is zero no number bounds them. */
  lemma ReadsCanStarve(t: Tunables, n: nat) returns (s: State, run: seq<Action>)
    requires t.starve == 0
    ensures Inv(t, s) && ReadsWait(t, s, run) && Picks(run) == n
  {
    hide Inv, ReadsWait, Picks, OnlyReads;
    s := FirstRead(t);
    run := WriteAfterWrite(t, s, 1, n);
  }

  lemma FirstRead(t: Tunables) returns (s: State)
    ensures Inv(t, s) && OnlyReads(s, 1)
  {
    StartInv(t, 0);
    AddedInv(t, Start(0), 0, 0, 0, Read, 0);
    s := Added(t, Start(0), 0, 0, 0, Read, 0);
    assert s.read.fifo == [] + [0] && s.read.next.None? && s.write == Side([], [], None) && s.rqs.Keys == {0};
    hide Inv, Added;
  }

  /** A read waits, nothing else does, and no request has the ids from id on. */
  ghost predicate OnlyReads(s: State, id: nat) {
    s.read.fifo != [] && s.read.next.None? && s.write == Side([], [], None) && forall x | x in s.rqs :: x < id
  }

  /** One write comes and goes. */
  function OneMore(t: Tunables, s: State, id: nat): State {
    s.(rqs := s.rqs[id := Rq(0, 0, Write, s.now + t.writeExpire)], write := Side([id], [id], None))
  }

  lemma AddOne(t: Tunables, s: State, id: nat)
    requires OnlyReads(s, id)
    ensures Added(t, s, id, 0, 0, Write, s.now) == OneMore(t, s, id)
  {
    assert InsertAt([], 0, id) == [id] && [] + [id] == [id];
    hide InsertAt;
  }

  lemma PickOne(t: Tunables, s: State, id: nat, now: nat)
    requires t.starve == 0 && HeadsKnown(s) && s.read.next.None? && s.write == Side([id], [id], None)
    ensures Choose(t, s, now) == Choice(id, Write, false)
  {}

  lemma DispatchOne(s: State, id: nat, now: nat)
    requires id in s.rqs && s.read.next.None? && s.write == Side([id], [id], None)
    ensures var s' := Dispatched(s, Choice(id, Write, false), now);
            s'.write == Side([], [], None) && s'.read == s.read && s'.rqs == s.rqs
  {
    assert IndexOf([id], id) == 0 && Without([id], id) == [];
    hide Without, IndexOf;
  }

  ghost predicate Steps(t: Tunables, s: State, a: Action, s': State) {
    Inv(t, s) && Enabled(s, a) && s' == Apply(t, s, a) && Inv(t, s')
  }

  lemma AddStep(t: Tunables, s: State, id: nat)
    requires Inv(t, s) && OnlyReads(s, id)
    ensures Steps(t, s, Add(id, 0, 0, Write, s.now), OneMore(t, s, id))
  {
    AddOne(t, s, id);
    hide Added, Inv, OneMore;
  }

  lemma DispatchStep(t: Tunables, s: State, id: nat) returns (s': State)
    requires t.starve == 0 && Inv(t, s) && id in s.rqs && s.read.next.None? && s.write == Side([id], [id], None)
    ensures Steps(t, s, Dispatch(s.now), s') && HeadsKnown(s) && Choose(t, s, s.now) == Choice(id, Write, false)
    ensures s'.write == Side([], [], None) && s'.read == s.read && s'.rqs == s.rqs
  {
    ChoiceInTree(t, s, s.now);
    PickOne(t, s, id, s.now);
    DispatchOne(s, id, s.now);
    hide Choose, Dispatched, Inv;
    s' := Apply(t, s, Dispatch(s.now));
  }

  lemma {:induction false} WriteAfterWrite(t: Tunables, s: State, id: nat, n: nat) returns (run: seq<Action>)
    requires t.starve == 0 && Inv(t, s) && OnlyReads(s, id)
    ensures ReadsWait(t, s, run) && Picks(run) == n
    decreases n
  {
    hide Inv, Apply, Choose, Enabled, HeadsKnown;
    run := [];
    if n > 0 {
      hide ReadsWait, Picks;
      AddStep(t, s, id);
      var s1 := OneMore(t, s, id);
      var s2 := DispatchStep(t, s1, id);
      var add, pick := Add(id, 0, 0, Write, s.now), Dispatch(s.now);
      var more := WriteAfterWrite(t, s2, id + 1, n - 1);
      PrependOne(t, s1, pick, s2, more);
      PrependOne(t, s, add, s1, [pick] + more);
      run := [add] + ([pick] + more);
    }
  }

  lemma PrependOne(t: Tunables, s: State, a: Action, s': State, run: seq<Action>)
    requires Steps(t, s, a, s') && s.read.fifo != [] && ReadsWait(t, s', run)
    requires a.Dispatch? ==> HeadsKnown(s) && Choose(t, s, a.now).Choice? && Choose(t, s, a.now).dir == Write
    ensures ReadsWait(t, s, [a] + run) && Picks([a] + run) == Picks(run) + if a.Dispatch? then 1 else 0
  {
    hide Inv, Apply, Enabled, Choose, HeadsKnown;
    ChoiceInTree(t, s, s.now);
    assert ([a] + run)[1..] == run && ([a] + run)[0] == a;
  }

  // ----- deadlines

  /** A request joins its direction with the deadline of that direction, behind all others. */
  lemma AddedWithDeadline(t: Tunables, s: State, id: nat, pos: nat, end: nat, d: Dir, now: nat)
    requires id !in s.rqs
    ensures var s' := Added(t, s, id, pos, end, d, now); var fifo := SideOf(s', d).fifo;
            && s'.rqs == s.rqs[id := Rq(pos, end, d, now + if d == Read then t.readExpire else t.writeExpire)]
            && fifo != [] && fifo[|fifo| - 1] == id && (forall x | x in fifo :: x == id || x in SideOf(s, d).fifo)
  {
    hide Cleared, InsertAt, Place;
    ClearedFifo(s, d, pos);
  }

  lemma ClearedFifo(s: State, d: Dir, pos: nat)
    ensures Cleared(s, d, pos).rqs == s.rqs
    ensures forall x | x in SideOf(Cleared(s, d, pos), d).fifo :: x in SideOf(s, d).fifo
  {
    hide Alias, Place, Latter, Without;
    var alias := Alias(s.rqs, SideOf(s, d).sort, pos);
    if alias.Some? { WithoutSubset(SideOf(s, d).fifo, alias.value); }
  }

  lemma WithoutSubset(list: seq<nat>, x: nat)
    ensures forall y | y in Without(list, x) :: y in list
  {}

  /** Joined, a request has the sooner of the two deadlines and ends where the other one ended. */
  lemma JoinedSooner(t: Tunables, s: State, id: nat, next: nat)
    requires Inv(t, s) && Enabled(s, Join(id, next))
    ensures var s', a, b := Apply(t, s, Join(id, next)), s.rqs[id], s.rqs[next];
            && s'.rqs == s.rqs[id := Rq(a.pos, b.end, a.dir, Min(a.expire, b.expire))] && next in s'.joined
  {
    hide Inv, Inherited, Removed;
  }

  /** If next_rq is the request that disappears, the nearest one above it takes its place. */
  lemma JoinMovesNext(t: Tunables, s: State, id: nat, next: nat, y: nat)
    requires Inv(t, s) && Enabled(s, Join(id, next))
    requires var side := SideOf(s, s.rqs[id].dir);
             side.next == Some(next) && y in side.sort && y in s.rqs && s.rqs[next].pos < s.rqs[y].pos
    ensures var d := s.rqs[id].dir;
            && next in SideOf(s, d).fifo && NoDup(SideOf(s, d).fifo)
            && var next' := SideOf(Joined(s, d, id, next), d).next;
               next'.Some? && next'.value in s.rqs && s.rqs[next].pos < s.rqs[next'.value].pos <= s.rqs[y].pos
  {
    InFifo(t, s, next);
    var d := s.rqs[id].dir;
    LatterAbove(t, s, d, next, y);
    hide Inv, Latter, Joined;
    JoinedNext(s, d, id, next);
  }

  lemma JoinedNext(s: State, d: Dir, id: nat, next: nat)
    requires id in s.rqs && next in s.rqs && id != next && next in SideOf(s, d).sort
    requires next in SideOf(s, d).fifo && NoDup(SideOf(s, d).fifo) && SideOf(s, d).next == Some(next)
    ensures SideOf(Joined(s, d, id, next), d).next == Latter(SideOf(s, d).sort, next)
  {
    hide Inherited, Latter, Without, NoDup;
  }

  lemma LatterAbove(t: Tunables, s: State, d: Dir, x: nat, y: nat)
    requires Inv(t, s) && x in SideOf(s, d).sort && y in SideOf(s, d).sort
    requires x in s.rqs && y in s.rqs && s.rqs[x].pos < s.rqs[y].pos
    ensures var l := Latter(SideOf(s, d).sort, x);
            l.Some? && l.value in s.rqs && s.rqs[x].pos < s.rqs[l.value].pos <= s.rqs[y].pos
  {
    hide SideOk, Placed, Latter;
    SideSorted(s.rqs, SideOf(s, d), d, s.now + Expiry(t, d), {});
    LatterIsNearest(s.rqs, SideOf(s, d).sort, d, x, y);
    LatterInTree(s.rqs, SideOf(s, d).sort, d, x);
  }

  // ----- how long a batch is

  /** How many requests the running batch has had. */
  ghost function BatchSoFar(t: Tunables, s: State, run: seq<Action>, n: nat): nat
    requires Inv(t, s)
    decreases |run|
  {
    if run == [] || !Enabled(s, run[0]) then n
    else
      ChoiceInTree(t, s, s.now);
      var c := Picked(t, s, run[0]);
      BatchSoFar(t, Apply(t, s, run[0]), run[1..], if c.Nothing? then n else if c.goesOn then n + 1 else 1)
  }

  lemma BatchingCounts(t: Tunables, s: State, a: Action)
    requires Inv(t, s) && Enabled(s, a)
    ensures HeadsKnown(s)
    ensures var c := Picked(t, s, a);
            Apply(t, s, a).batching == if c.Nothing? then s.batching else if c.goesOn then s.batching + 1 else 1
  {
    ChoiceInTree(t, s, s.now);
    if a.Dispatch? {
      DispatchBatches(t, s, a.now);
    } else {
      OthersAreFree(t, s, a);
    }
    hide Inv, Apply, Choose, Enabled;
  }

  lemma DispatchBatches(t: Tunables, s: State, now: nat)
    requires Inv(t, s) && Enabled(s, Dispatch(now)) && HeadsKnown(s)
    ensures var c := Choose(t, s, now);
            Apply(t, s, Dispatch(now)).batching == if c.Nothing? then s.batching else if c.goesOn then s.batching + 1 else 1
  {
    ChoiceInTree(t, s, now);
    hide Inv, Dispatched, Choose;
    var c := Choose(t, s, now);
    if c.Choice? { DispatchCounts(s, c, now); } else { NothingCounts(s, now); }
  }

  lemma {:induction false} BatchingIsSoFar(t: Tunables, s: State, run: seq<Action>, end: State)
    requires Inv(t, s) && Runs(t, s, run, end)
    ensures end.batching == BatchSoFar(t, s, run, s.batching)
    decreases |run|
  {
    hide Inv, Apply, Enabled, Picked;
    if run != [] {
      BatchingCounts(t, s, run[0]);
      BatchingIsSoFar(t, Apply(t, s, run[0]), run[1..], end);
    }
  }

  /** In every state the scheduler can reach, a batch that has a next_rq goes on with it exactly until it
      has had fifo_batch requests. */
  lemma BatchRunsFull(t: Tunables, start: nat, run: seq<Action>, s: State, now: nat, d: Dir)
    requires Inv(t, Start(start)) && Runs(t, Start(start), run, s) && HeadsKnown(s) && SideOf(s, d).next.Some?
    ensures var c, soFar := Choose(t, s, now), BatchSoFar(t, Start(start), run, 0);
            && (c.Choice? && c.goesOn <==> soFar < t.batch)
            && (soFar < t.batch ==> c == Choice(SideOf(s, d).next.value, d, true))
  {
    BatchingIsSoFar(t, Start(start), run, s);
    Reachable(t, start, run, s, d, 0, 0);
    hide Inv, Runs, NewBatch, BatchSoFar;
    NewBatchIsNew(s, Read, now);
    NewBatchIsNew(s, Write, now);
  }
}
