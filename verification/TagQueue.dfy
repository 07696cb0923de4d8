/** block/blk-tag.c in place, for a queue that holds its lock: finding, starting and ending tags,
    changing the depth, and taking every request back. */
module TagQueue {
  import opened Arithmetic
  import opened Options
  import opened Lists
  import Tags

  /** Every request is in one place: on the dispatch list, or busy with a tag. */
  ghost predicate Placed(busy: seq<nat>, dispatch: seq<nat>, tagged: set<nat>) {
    && NoDup(busy) && NoDup(dispatch)
    && (forall rq :: rq in busy <==> rq in tagged)
    && (forall rq | rq in busy :: rq !in dispatch)
  }

  lemma PlacedStart(busy: seq<nat>, dispatch: seq<nat>, tagged: set<nat>, rq: nat)
    requires Placed(busy, dispatch, tagged) && rq in dispatch
    ensures rq !in tagged && Placed([rq] + busy, Without(dispatch, rq), tagged + {rq})
  {
    hide IndexOf, Without, NoDup;
    WithoutMembers(dispatch, rq);
    InsertAtMembers(busy, 0, rq);
    assert InsertAt(busy, 0, rq) == [rq] + busy;
  }

  lemma PlacedEnd(busy: seq<nat>, dispatch: seq<nat>, tagged: set<nat>, rq: nat)
    requires Placed(busy, dispatch, tagged) && rq in tagged
    ensures Placed(Without(busy, rq), dispatch, tagged - {rq})
    ensures Placed(Without(busy, rq), [rq] + dispatch, tagged - {rq})
  {
    hide IndexOf, Without, NoDup;
    WithoutMembers(busy, rq);
    InsertAtMembers(dispatch, 0, rq);
    assert InsertAt(dispatch, 0, rq) == [rq] + dispatch;
  }

  lemma BusyIsTagged(busy: seq<nat>, dispatch: seq<nat>, tagged: set<nat>)
    requires Placed(busy, dispatch, tagged)
    ensures if busy == [] then tagged == {} else busy[0] in tagged
  {
    if busy != [] { assert busy[0] in busy; }
  }

  class Queue {
    var tagMap: array<bool>
    const wordBits: Tags.Positive  // BITS_PER_LONG
    var tagIndex: array<Option<nat>>
    var maxDepth: nat
    var tagOf: map<nat, nat>   // rq->tag, for the requests that are REQ_QUEUED
    var busy: seq<nat>         // tag_busy_list, the request started last in front
    var dispatch: seq<nat>     // queue_head

    ghost predicate Valid()
      reads this, tagMap, tagIndex
    {
      && tagMap.Length == Aligned(tagIndex.Length, wordBits) && maxDepth <= tagIndex.Length
      && (forall t | 0 <= t < tagMap.Length :: tagMap[t] == (t < tagIndex.Length && tagIndex[t].Some?))
      && (forall t | 0 <= t < tagIndex.Length && tagIndex[t].Some? :: tagIndex[t].value in tagOf && tagOf[tagIndex[t].value] == t)
      && (forall rq | rq in tagOf :: tagOf[rq] < tagIndex.Length && tagIndex[tagOf[rq]] == Some(rq))
      && Placed(busy, dispatch, tagOf.Keys)
    }

    /** init_tag_map */
    constructor (bitsPerLong: Tags.Positive, depth: nat, nrRequests: nat, waiting: seq<nat>)
      requires NoDup(waiting)
      ensures Valid() && tagOf == map[] && busy == [] && dispatch == waiting && wordBits == bitsPerLong
      ensures tagIndex.Length == maxDepth == Tags.Clamped(depth, nrRequests) && forall t | 0 <= t < tagMap.Length :: !tagMap[t]
    {
      var size := if depth > nrRequests * 2 then nrRequests * 2 else depth;
      wordBits := bitsPerLong;
      tagMap := new bool[Aligned(size, bitsPerLong)](_ => false);
      tagIndex := new Option<nat>[size](_ => None);
      maxDepth, tagOf, busy, dispatch := size, map[], [], waiting;
    }

    /** find_first_zero_bit */
    method FindFirstZero(depth: nat) returns (t: nat)
      requires depth <= tagMap.Length
      ensures t <= depth && (forall i | 0 <= i < t :: tagMap[i]) && (t < depth ==> !tagMap[t])
    {
      t := 0;
      while t < depth && tagMap[t]
        invariant t <= depth && forall i | 0 <= i < t :: tagMap[i]
      {
        t := t + 1;
      }
    }

    /** The loop of blk_queue_start_tag, which a queue whose map nobody else uses never goes round
        twice: the first free tag below the limit is taken, if there is one. */
    method ClaimBit(limit: nat) returns (tag: nat)
      requires limit <= tagMap.Length
      modifies tagMap
      ensures tag <= limit && (forall t | 0 <= t < tag :: old(tagMap[t])) && (tag < limit ==> !old(tagMap[tag]))
      ensures forall t | 0 <= t < tagMap.Length :: tagMap[t] == (old(tagMap[t]) || (t == tag && tag < limit))
    {
      tag := 0;
      var taken := true;
      while taken
        invariant taken ==> forall t | 0 <= t < tagMap.Length :: tagMap[t] == old(tagMap[t])
        invariant !taken ==> tag < limit && !old(tagMap[tag]) && forall t | 0 <= t < tag :: old(tagMap[t])
        invariant !taken ==> forall t | 0 <= t < tagMap.Length :: tagMap[t] == (old(tagMap[t]) || t == tag)
        decreases taken
      {
        tag := FindFirstZero(limit);
        if tag >= limit { return; }
        taken := tagMap[tag];
        tagMap[tag] := true;
      }
    }

    /** blk_queue_start_tag */
    method StartTag(rq: nat, sync: bool, asyncInFlight: nat) returns (failed: bool)
      requires Valid() && rq in dispatch
      modifies this, tagMap, tagIndex
      ensures Valid() && tagMap == old(tagMap) && tagIndex == old(tagIndex) && maxDepth == old(maxDepth)
      ensures var limit := if sync || maxDepth < 2 then maxDepth else if maxDepth == 2 then 1 else maxDepth - 2;
              && limit == Tags.Limit(maxDepth, sync)
              && (failed <==> (!sync && maxDepth > 1 && asyncInFlight > limit) || forall t | 0 <= t < limit :: old(tagMap[t]))
      ensures failed ==> tagOf == old(tagOf) && busy == old(busy) && dispatch == old(dispatch)
      ensures !failed ==>
        && busy == [rq] + old(busy) && dispatch == Without(old(dispatch), rq)
        && rq in tagOf && tagOf == old(tagOf)[rq := tagOf[rq]]
        && var tag := tagOf[rq]; tag < Tags.Limit(maxDepth, sync) && !old(tagMap[tag])
    {
      hide Without, Placed, Aligned;
      PlacedStart(busy, dispatch, tagOf.Keys, rq);
      var limit := maxDepth;
      if !sync && limit > 1 {
        limit := limit - 2;
        if limit == 0 { limit := 1; }
        if asyncInFlight > limit { return true; }
      }
      assert limit == Tags.Limit(maxDepth, sync);
      var tag := ClaimBit(limit);
      if tag >= limit { return true; }
      tagOf := tagOf[rq := tag];
      tagIndex[tag] := Some(rq);
      assert tagOf.Keys == old(tagOf).Keys + {rq};
      dispatch := Without(dispatch, rq);
      busy := [rq] + busy;
      return false;
    }

    /** blk_queue_end_tag */
    method EndTag(rq: nat)
      requires Valid() && rq in tagOf
      modifies this`tagOf, this`busy, tagMap, tagIndex
      ensures Valid() && tagOf == old(tagOf) - {rq} && busy == Without(old(busy), rq)
      ensures forall t | 0 <= t < tagMap.Length :: tagMap[t] == (old(tagMap[t]) && t != old(tagOf)[rq])
    {
      hide Without, Placed;
      var tag := tagOf[rq];
      PlacedEnd(busy, dispatch, tagOf.Keys, rq);
      busy := Without(busy, rq);
      tagOf := tagOf - {rq};
      assert tagOf.Keys == old(tagOf).Keys - {rq};
      tagIndex[tag] := None;
      tagMap[tag] := false;
    }

    /** blk_requeue_request and elv_requeue_request while no barrier sequence is running. */
    method RequeueRequest(rq: nat)
      requires Valid() && rq in tagOf
      modifies this`tagOf, this`busy, this`dispatch, tagMap, tagIndex
      ensures Valid() && tagOf == old(tagOf) - {rq} && busy == Without(old(busy), rq) && dispatch == [rq] + old(dispatch)
      ensures forall t | 0 <= t < tagMap.Length :: tagMap[t] == (old(tagMap[t]) && t != old(tagOf)[rq])
    {
      hide Without, Placed;
      PlacedEnd(busy, dispatch, tagOf.Keys, rq);
      EndTag(rq);
      assert tagOf.Keys == old(tagOf).Keys - {rq};
      dispatch := [rq] + dispatch;
    }

    /** blk_queue_invalidate_tags: the requests go back in the order in which they were started, in
        front of the others, and every tag is free. */
    method InvalidateTags()
      requires Valid()
      modifies this`tagOf, this`busy, this`dispatch, tagMap, tagIndex
      ensures Valid() && tagOf == map[] && busy == []
      ensures dispatch == Reversed(old(busy)) + old(dispatch)
      ensures forall t | 0 <= t < tagMap.Length :: !tagMap[t]
    {
      hide Without, Placed, Reversed, Aligned;
      ghost var i := 0;
      while busy != []
        invariant Valid() && i <= |old(busy)| && busy == old(busy)[i..]
        invariant dispatch == Reversed(old(busy)[..i]) + old(dispatch)
        decreases busy
      {
        var rq := busy[0];
        BusyIsTagged(busy, dispatch, tagOf.Keys);
        WithoutFirst(busy);
        ReversedSnoc(old(busy)[..i], rq);
        assert old(busy)[..i + 1] == old(busy)[..i] + [rq];
        RequeueRequest(rq);
        i := i + 1;
      }
      assert old(busy)[..i] == old(busy);
      BusyIsTagged(busy, dispatch, tagOf.Keys);
    }

    /** The new arrays, and what the copy of the old ones wrote past them. */
    method CopyTags(size: nat)
      returns (newMap: array<bool>, newIndex: array<Option<nat>>, indexPast: seq<Option<nat>>, bitsPast: seq<bool>)
      requires tagMap.Length == Aligned(tagIndex.Length, wordBits)
      ensures fresh(newMap) && fresh(newIndex) && newIndex.Length == size && newMap.Length == Aligned(size, wordBits)
      ensures (newIndex[..], indexPast) == Copied(Filled(size, None), tagIndex[..], tagIndex.Length)
      ensures (newMap[..], bitsPast) == Copied(Filled(newMap.Length, false), tagMap[..], tagMap.Length)
      ensures size >= tagIndex.Length ==> newMap.Length >= tagMap.Length
      ensures size >= tagIndex.Length ==> forall t | 0 <= t < size :: newIndex[t] == if t < tagIndex.Length then tagIndex[t] else None
      ensures size >= tagIndex.Length ==> forall t | 0 <= t < newMap.Length :: newMap[t] == (t < tagMap.Length && tagMap[t])
    {
      if size >= tagIndex.Length { AlignedGrows(tagIndex.Length, size, wordBits); }
      hide Aligned;
      newIndex, indexPast := CopyToNew(tagIndex, size, None);
      newMap, bitsPast := CopyToNew(tagMap, Aligned(size, wordBits), false);
    }

    /** blk_queue_resize_tags; `shared` says that other queues use the map. Growing it copies as many
        entries and as many words of bits as the old map had. They fit into the new arrays iff the
        clamped depth is no smaller than the old one, and then nothing but the depths changes. */
    method ResizeTags(depth: nat, shared: bool, nrRequests: nat) returns (r: Resized)
      requires Valid()
      modifies this
      ensures tagOf == old(tagOf) && busy == old(busy) && dispatch == old(dispatch)
      ensures r.Adjusted? <==> depth <= old(tagIndex.Length)
      ensures r.Adjusted? ==> tagMap == old(tagMap) && tagIndex == old(tagIndex) && maxDepth == depth && Valid()
      ensures r.Busy? <==> depth > old(tagIndex.Length) && shared
      ensures r.Busy? ==> unchanged(this)
      ensures r.Replaced? ==>
        var clamped, was := Tags.Clamped(depth, nrRequests), old(tagIndex.Length);
        && fresh(tagMap) && fresh(tagIndex) && tagIndex.Length == maxDepth == clamped
        && (tagIndex[..], r.indexPast) == Copied(Filled(clamped, None), old(tagIndex[..]), was)
        && (tagMap[..], r.bitsPast) ==
             Copied(Filled(Aligned(clamped, wordBits), false), old(tagMap[..]), Aligned(was, wordBits))
        && (r.indexPast == [] && r.bitsPast == [] <==> clamped >= was)
        && (r.bitsPast == [] <==> Aligned(clamped, wordBits) >= Aligned(was, wordBits))
        && (clamped >= was ==> Valid())
    {
      hide Aligned, Placed;
      if depth <= tagIndex.Length {
        maxDepth := depth;
        return Adjusted;
      }
      if shared { return Busy; }
      var size := if depth > nrRequests * 2 then nrRequests * 2 else depth;
      var newMap, newIndex, indexPast, bitsPast := CopyTags(size);
      maxDepth := size;
      tagMap, tagIndex := newMap, newIndex;
      return Replaced(indexPast, bitsPast);
    }
  }

  /** What a change of depth came to; `indexPast` and `bitsPast` were written past the new arrays. */
  datatype Resized = Adjusted | Busy | Replaced(indexPast: seq<Option<nat>>, bitsPast: seq<bool>)

  lemma WithoutFirst(s: seq<nat>)
    requires s != []
    ensures Without(s, s[0]) == s[1..]
  {}

  lemma {:induction false} ReversedSnoc(s: seq<nat>, x: nat)
    ensures Reversed(s + [x]) == [x] + Reversed(s)
  {
    if s == [] {
      assert s + [x] == [x];
    } else {
      ReversedSnoc(s[1..], x);
      assert (s + [x])[1..] == s[1..] + [x];
    }
  }
}
