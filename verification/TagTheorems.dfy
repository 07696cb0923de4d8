/** What holds of every interleaving of the queues that share a tag map. */
module TagTheorems {
  import opened Arithmetic
  import opened Lists
  import opened Options
  import opened Tags

  ghost predicate IsRun(w: World, s: Shared, run: seq<Action>, end: Shared)
    decreases |run|
  {
    if run == [] then end == s else Enabled(w, s, run[0]) && IsRun(w, Apply(w, s, run[0]), run[1..], end)
  }

  /** No tag is in use and every queue is idle. */
  predicate Fresh(s: Shared) {
    s.bits == map[] && s.index == map[] && s.tagOf == map[] && s.maxDepth == s.realMax && forall q | q in s.pc :: s.pc[q].Idle?
  }

  lemma {:induction false} RunInv(w: World, s: Shared, run: seq<Action>, end: Shared)
    requires Inv(w, s) && IsRun(w, s, run, end)
    ensures Inv(w, end)
    decreases |run|
  {
    if run != [] {
      hide Inv, Enabled, Apply;
      StepInv(w, s, run[0]);
      RunInv(w, Apply(w, s, run[0]), run[1..], end);
    }
  }

  /** However the queues interleave, no two requests ever carry the same tag; a tag that a request
      carries is within the map and its bit is set; and tag_index names no request but the one whose
      bit is set, which carries the tag or is still giving it back. */
  lemma TagsAreExclusive(w: World, s: Shared, run: seq<Action>, end: Shared, a: nat, b: nat, t: nat)
    requires Fresh(s) && IsRun(w, s, run, end)
    ensures a in end.tagOf && b in end.tagOf && a != b ==> end.tagOf[a] != end.tagOf[b]
    ensures a in end.tagOf ==> end.tagOf[a] in end.bits && end.tagOf[a] < end.realMax
    ensures t in end.index ==> t in end.bits && end.index[t] == end.bits[t] && Claimed(w, end, t)
  {
    RunInv(w, s, run, end);
    hide IsRun, Pcs;
  }

  /** When a request's tag is ended it finds its own entry and its own bit, so none of the error
      branches of blk_queue_end_tag is ever taken. */
  lemma EndFindsItsTag(w: World, s: Shared, run: seq<Action>, end: Shared, rq: nat)
    requires Fresh(s) && IsRun(w, s, run, end) && Enabled(w, end, End(rq))
    ensures var t := end.tagOf[rq]; t < end.realMax && t in end.bits && t in end.index && end.index[t] == rq
  {
    RunInv(w, s, run, end);
    hide IsRun, Pcs;
  }

  // ----- growing the map

  /** tag_index as an array of n entries. */
  function IndexTable(s: Shared, n: nat): seq<Option<nat>> {
    seq(n, t => if t in s.index then Some(s.index[t]) else None)
  }

  /** tag_map as an array of n bits. */
  function BitTable(s: Shared, n: nat): seq<bool> { seq(n, t => t in s.bits) }

  /** blk_queue_resize_tags copies as many entries as the old map had, and as many whole words of
      bits, into new arrays for the clamped depth: what these then hold, and what was written past
      their ends. */
  function CopiedIndex(s: Shared, depth: nat): (seq<Option<nat>>, seq<Option<nat>>) {
    Copied(Filled(depth, None), IndexTable(s, s.realMax), s.realMax)
  }

  function CopiedBits(w: World, s: Shared, depth: nat): (seq<bool>, seq<bool>) {
    var n := Aligned(s.realMax, w.wordBits);
    Copied(Filled(Aligned(depth, w.wordBits), false), BitTable(s, n), n)
  }

  /** The copy stays inside the new arrays iff the clamped depth is no smaller than the old one,
      whatever tags are in use, and then nothing but the depths changes. */
  lemma GrowKeepsTags(w: World, s: Shared, depth: nat, nrRequests: nat)
    requires Inv(w, s) && depth > s.realMax && forall q | q in s.pc :: s.pc[q].Idle?
    ensures var c := Clamped(depth, nrRequests);
            && (CopiedIndex(s, c).1 == [] && CopiedBits(w, s, c).1 == [] <==> c >= s.realMax)
            && (CopiedBits(w, s, c).1 == [] <==> Aligned(c, w.wordBits) >= Aligned(s.realMax, w.wordBits))
            && (c >= s.realMax ==>
                  && Enabled(w, s, Grow(c))
                  && var s' := Apply(w, s, Grow(c));
                     && CopiedIndex(s, c).0 == IndexTable(s', s'.realMax)
                     && CopiedBits(w, s, c).0 == BitTable(s', Aligned(s'.realMax, w.wordBits))
                     && s' == s.(realMax := c, maxDepth := c))
  {
    hide Pcs, Carried, Aligned;
    var c := Clamped(depth, nrRequests);
    if c >= s.realMax {
      AlignedGrows(s.realMax, c, w.wordBits);
      assert forall t | t in s.index :: t < s.realMax;
    }
  }

  /** With sixteen tags, none of them in use, on a queue that came down to four requests, asking for
      seventeen copies eight entries past the end of the new index. */
  lemma GrowCanOverrun(s: Shared)
    requires Fresh(s) && s.realMax == 16
    ensures Clamped(17, 4) == 8 && CopiedIndex(s, Clamped(17, 4)).1 == Filled(8, None)
  {}

  // ----- tags kept for sync requests

  predicate KeepsDepth(a: Action) { !a.SetDepth? && !a.Grow? }

  /** The last two tags are only ever set for sync requests. */
  ghost predicate Reserve(w: World, s: Shared, depth: nat) {
    && s.maxDepth == depth
    && (forall t | t in s.bits && t + 2 >= depth :: w.sync(s.bits[t]))
    && (forall q | q in s.pc && (s.pc[q].Finding? || s.pc[q].Trying?) :: s.pc[q].limit == Limit(depth, w.sync(s.pc[q].rq)))
    && (forall q | q in s.pc && s.pc[q].Finding? :: s.pc[q].at < s.pc[q].limit)
  }

  lemma StepReserve(w: World, s: Shared, a: Action, depth: nat)
    requires Inv(w, s) && Reserve(w, s, depth) && Enabled(w, s, a) && KeepsDepth(a) && depth >= 3
    ensures Reserve(w, Apply(w, s, a), depth)
  {
    hide Held, Carried, Indexed, FirstZero, Mod;
  }

  lemma {:induction false} RunReserve(w: World, s: Shared, run: seq<Action>, end: Shared, depth: nat)
    requires Inv(w, s) && Reserve(w, s, depth) && depth >= 3 && IsRun(w, s, run, end)
    requires forall i | 0 <= i < |run| :: KeepsDepth(run[i])
    ensures Inv(w, end) && Reserve(w, end, depth)
    decreases |run|
  {
    if run != [] {
      hide Inv, Enabled, Apply, Reserve;
      StepInv(w, s, run[0]);
      StepReserve(w, s, run[0], depth);
      RunReserve(w, Apply(w, s, run[0]), run[1..], end, depth);
    }
  }

  function SyncTags(w: World, s: Shared): set<nat> { set t | t in s.bits && w.sync(s.bits[t]) }

  /** Both tags kept for sync requests are bits of one word. */
  predicate OneWord(w: World, depth: nat) { depth > 0 && Mod(depth - 1, w.wordBits) != 0 }

  /** With a fixed depth of three or more whose last two tags share a word, a sync request that looks
      for a tag never gives up on reading a word while fewer than two bits are set for sync requests,
      whatever async requests hold; and the tag it then tries is free. */
  lemma SyncFindsTag(w: World, s: Shared, run: seq<Action>, end: Shared, q: nat)
    requires Fresh(s) && s.maxDepth >= 3 && OneWord(w, s.maxDepth) && IsRun(w, s, run, end)
    requires forall i | 0 <= i < |run| :: KeepsDepth(run[i])
    requires q in end.pc && end.pc[q].Finding? && w.sync(end.pc[q].rq) && |SyncTags(w, end)| < 2
    ensures Enabled(w, end, Scan(q)) && end.pc[q].limit == s.maxDepth
    ensures var s1 := Apply(w, end, Scan(q));
            && !s1.pc[q].Idle?
            && (end.pc[q].at + w.wordBits >= s.maxDepth ==>
                  s1.pc[q].Trying? && Apply(w, s1, TestAndSet(q)).pc[q] == Got(end.pc[q].rq, s1.pc[q].tag))
  {
    RunReserve(w, s, run, end, s.maxDepth);
    assert PcOk(w, end, q, end.pc[q]);
    hide IsRun, Inv, Apply, Enabled, Reserve, Mod;
    ScanFinds(w, end, q, s.maxDepth);
  }

  /** A request that looks for a tag goes away without one only when it has read the last word and saw
      every bit of it set; a tag lost to another queue sends it back to the first word. */
  lemma GivesUpAtTheEnd(w: World, s: Shared, a: Action, q: nat)
    requires Enabled(w, s, a) && q in s.pc && (s.pc[q].Finding? || s.pc[q].Trying?)
    ensures var p, p' := s.pc[q], Apply(w, s, a).pc[q];
            && (p'.Idle? ==> a == Scan(q) && p.Finding? && p.at + w.wordBits >= p.limit && forall t | p.at <= t < p.limit :: t in s.bits)
            && (a == TestAndSet(q) && p.tag in s.bits ==> p' == Finding(p.rq, p.limit, 0))
  {
    hide FirstZero;
  }

  lemma ScanFinds(w: World, s: Shared, q: nat, depth: nat)
    requires Reserve(w, s, depth) && depth >= 3 && OneWord(w, depth)
    requires q in s.pc && s.pc[q].Finding? && w.sync(s.pc[q].rq) && Mod(s.pc[q].at, w.wordBits) == 0 && |SyncTags(w, s)| < 2
    ensures Enabled(w, s, Scan(q)) && s.pc[q].limit == depth
    ensures var s1 := Apply(w, s, Scan(q));
            && !s1.pc[q].Idle?
            && (s.pc[q].at + w.wordBits >= depth ==>
                  s1.pc[q].Trying? && Apply(w, s1, TestAndSet(q)).pc[q] == Got(s.pc[q].rq, s1.pc[q].tag))
  {
    hide FirstZero, Mod, SyncTags;
    var p := s.pc[q];
    if p.at + w.wordBits >= depth {
      assert p.at != depth - 1;
      OneIsFree(w, s, depth, p.at);
    }
  }

  lemma OneIsFree(w: World, s: Shared, depth: nat, at: nat)
    requires Reserve(w, s, depth) && depth >= 3 && |SyncTags(w, s)| < 2 && at + 2 <= depth
    ensures FirstZero(s.bits, at, depth) < depth
  {
    hide FirstZero;
    if depth - 2 in s.bits && depth - 1 in s.bits {
      var both := {depth - 2, depth - 1};
      assert both <= SyncTags(w, s);
      SubsetSize(both, SyncTags(w, s));
      assert false;
    }
  }

  lemma SubsetSize(a: set<nat>, b: set<nat>)
    requires a <= b
    ensures |a| <= |b|
  {
    if a != {} {
      var x :| x in a;
      SubsetSize(a - {x}, b - {x});
    }
  }
}
