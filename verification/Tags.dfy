/** A tag map shared by queues that hold different locks: block/blk-tag.c as a state machine whose
    steps are the single accesses to the map, word by word, so that queues interleave at every one
    of them. */
module Tags {
  import opened Arithmetic

  /** Where a queue is in blk_queue_start_tag or blk_queue_end_tag. A queue that looks for a tag has
      read the bits below `at`. */
  datatype Pc =
    | Idle
    | Finding(rq: nat, limit: nat, at: nat)
    | Trying(rq: nat, limit: nat, tag: nat)
    | Got(rq: nat, tag: nat)
    | Marked(rq: nat, tag: nat)
    | Releasing(rq: nat, tag: nat)
    | Unlocking(rq: nat, tag: nat)

  /** `bits` are the set bits of tag_map, each with the request it was set for, `index` the non-null
      entries of tag_index, and `tagOf` the tags requests carry. */
  datatype Shared = Shared(bits: map<nat, nat>, index: map<nat, nat>, realMax: nat, maxDepth: nat,
                           pc: map<nat, Pc>, tagOf: map<nat, nat>)

  type Positive = n: nat | n > 0 witness 1

  /** What never changes: the queue of a request, whether it is sync, and BITS_PER_LONG. */
  datatype World = World(queueOf: nat -> nat, sync: nat -> bool, wordBits: Positive)

  datatype Action =
    | Start(rq: nat)                // read the depth
    | Scan(q: nat)                  // find_first_zero_bit reads one word
    | TestAndSet(q: nat)
    | Mark(q: nat)                  // set rq->tag
    | SetIndex(q: nat)
    | End(rq: nat)                  // reset rq->tag
    | ClearIndex(q: nat)
    | Unlock(q: nat)
    | SetDepth(depth: nat)          // blk_queue_resize_tags up to real_max_depth
    | Grow(depth: nat)              // and past it, for a map that is not shared

  /** The tags a request may have: two are kept for sync requests. */
  function Limit(max: nat, sync: bool): nat {
    if sync || max <= 1 then max else if max == 2 then 1 else max - 2
  }

  /** init_tag_map: a queue's map has at most two tags for each of its requests. */
  function Clamped(depth: nat, nrRequests: nat): nat { if depth > nrRequests * 2 then nrRequests * 2 else depth }

  /** find_first_zero_bit */
  function FirstZero(bits: map<nat, nat>, from: nat, limit: nat): (t: nat)
    requires from <= limit
    ensures from <= t <= limit && (forall i | from <= i < t :: i in bits) && (t < limit ==> t !in bits)
    decreases limit - from
  {
    if from == limit || from !in bits then from else FirstZero(bits, from + 1, limit)
  }

  /** The end of the word that starts at bit `at`, or the limit if that comes first. */
  function WordEnd(w: World, at: nat, limit: nat): nat { if at + w.wordBits < limit then at + w.wordBits else limit }

  /** What reading the next word leads to: a clear bit, the next word, or giving up at the limit. */
  function Scanned(w: World, s: Shared, p: Pc): Pc
    requires p.Finding? && p.at <= p.limit
  {
    var end := WordEnd(w, p.at, p.limit);
    var t := FirstZero(s.bits, p.at, end);
    if t < end then Trying(p.rq, p.limit, t)
    else if end == p.limit then Idle
    else Finding(p.rq, p.limit, end)
  }

  predicate At(s: Shared, q: nat) { q in s.pc }

  predicate Enabled(w: World, s: Shared, a: Action) {
    match a
    case Start(rq) => At(s, w.queueOf(rq)) && s.pc[w.queueOf(rq)].Idle? && rq !in s.tagOf
    case Scan(q) => At(s, q) && s.pc[q].Finding? && s.pc[q].at <= s.pc[q].limit
    case TestAndSet(q) => At(s, q) && s.pc[q].Trying?
    case Mark(q) => At(s, q) && s.pc[q].Got?
    case SetIndex(q) => At(s, q) && s.pc[q].Marked?
    case End(rq) => At(s, w.queueOf(rq)) && s.pc[w.queueOf(rq)].Idle? && rq in s.tagOf
    case ClearIndex(q) => At(s, q) && s.pc[q].Releasing?
    case Unlock(q) => At(s, q) && s.pc[q].Unlocking?
    case SetDepth(depth) => depth <= s.realMax
    case Grow(depth) => depth >= s.realMax && forall q | q in s.pc :: s.pc[q].Idle?
  }

  function Go(s: Shared, q: nat, pc: Pc): Shared { s.(pc := s.pc[q := pc]) }

  function Apply(w: World, s: Shared, a: Action): Shared
    requires Enabled(w, s, a)
  {
    match a
    case Start(rq) => Go(s, w.queueOf(rq), Finding(rq, Limit(s.maxDepth, w.sync(rq)), 0))
    case Scan(q) => Go(s, q, Scanned(w, s, s.pc[q]))
    case TestAndSet(q) =>
      var p := s.pc[q];
      if p.tag in s.bits then Go(s, q, Finding(p.rq, p.limit, 0))
      else Go(s.(bits := s.bits[p.tag := p.rq]), q, Got(p.rq, p.tag))
    case Mark(q) => var p := s.pc[q]; Go(s.(tagOf := s.tagOf[p.rq := p.tag]), q, Marked(p.rq, p.tag))
    case SetIndex(q) => var p := s.pc[q]; Go(s.(index := s.index[p.tag := p.rq]), q, Idle)
    case End(rq) => Go(s.(tagOf := s.tagOf - {rq}), w.queueOf(rq), Releasing(rq, s.tagOf[rq]))
    case ClearIndex(q) => var p := s.pc[q]; Go(s.(index := s.index - {p.tag}), q, Unlocking(p.rq, p.tag))
    case Unlock(q) => Go(s.(bits := s.bits - {s.pc[q].tag}), q, Idle)
    case SetDepth(depth) => s.(maxDepth := depth)
    case Grow(depth) => s.(realMax := depth, maxDepth := depth)
  }

  // ----- what every step keeps

  /** A queue works on its own requests, within the depth. */
  ghost predicate PcOk(w: World, s: Shared, q: nat, p: Pc) {
    && (!p.Idle? ==> w.queueOf(p.rq) == q)
    && (p.Finding? || p.Trying? ==> p.rq !in s.tagOf && p.limit <= s.realMax)
    && (p.Finding? ==> p.at <= p.limit && Mod(p.at, w.wordBits) == 0)
    && (p.Trying? ==> p.tag < p.limit)
    && (p.Got? ==> p.rq !in s.tagOf && p.tag in s.bits && s.bits[p.tag] == p.rq && p.tag !in s.index)
    && (p.Marked? ==> p.rq in s.tagOf && s.tagOf[p.rq] == p.tag && p.tag !in s.index)
    && (p.Releasing? ==> p.rq !in s.tagOf && p.tag in s.bits && s.bits[p.tag] == p.rq && p.tag in s.index)
    && (p.Unlocking? ==> p.rq !in s.tagOf && p.tag in s.bits && s.bits[p.tag] == p.rq && p.tag !in s.index)
  }

  /** A bit belongs to the request that carries its tag, or that is taking or releasing it. */
  ghost predicate Claimed(w: World, s: Shared, t: nat)
    requires t in s.bits
  {
    var rq := s.bits[t];
    || (rq in s.tagOf && s.tagOf[rq] == t)
    || (w.queueOf(rq) in s.pc && var p := s.pc[w.queueOf(rq)]; (p.Got? || p.Releasing? || p.Unlocking?) && p.rq == rq && p.tag == t)
  }

  ghost predicate Pcs(w: World, s: Shared) { forall q | q in s.pc :: PcOk(w, s, q, s.pc[q]) }

  ghost predicate Carried(w: World, s: Shared) {
    forall rq | rq in s.tagOf ::
      && s.tagOf[rq] in s.bits && s.bits[s.tagOf[rq]] == rq && w.queueOf(rq) in s.pc
      && (s.tagOf[rq] in s.index || (s.pc[w.queueOf(rq)].Marked? && s.pc[w.queueOf(rq)].rq == rq))
  }

  ghost predicate Indexed(s: Shared) { forall t | t in s.index :: t in s.bits && s.index[t] == s.bits[t] }

  ghost predicate Held(w: World, s: Shared) { forall t | t in s.bits :: t < s.realMax && Claimed(w, s, t) }

  ghost predicate Inv(w: World, s: Shared) {
    s.maxDepth <= s.realMax && Pcs(w, s) && Carried(w, s) && Indexed(s) && Held(w, s)
  }

  lemma StartInv(w: World, s: Shared, rq: nat)
    requires Inv(w, s) && Enabled(w, s, Start(rq))
    ensures Inv(w, Apply(w, s, Start(rq)))
  {
    ZeroIsMultiple(w.wordBits);
    hide Mod;
  }

  lemma ScanPcs(w: World, s: Shared, q: nat)
    requires Inv(w, s) && Enabled(w, s, Scan(q))
    ensures Pcs(w, Apply(w, s, Scan(q)))
  {
    hide Held, Claimed, FirstZero, Mod;
    assert PcOk(w, s, q, s.pc[q]);
    NextMultiple(s.pc[q].at, w.wordBits);
  }

  lemma ScanInv(w: World, s: Shared, q: nat)
    requires Inv(w, s) && Enabled(w, s, Scan(q))
    ensures Inv(w, Apply(w, s, Scan(q)))
  {
    ScanPcs(w, s, q);
    assert PcOk(w, s, q, s.pc[q]);
    hide Pcs, FirstZero, Mod;
  }

  lemma TestAndSetPcs(w: World, s: Shared, q: nat)
    requires Inv(w, s) && Enabled(w, s, TestAndSet(q))
    ensures Pcs(w, Apply(w, s, TestAndSet(q)))
  {
    ZeroIsMultiple(w.wordBits);
    hide Held, Claimed, FirstZero, Mod;
  }

  lemma TestAndSetHeld(w: World, s: Shared, q: nat)
    requires Inv(w, s) && Enabled(w, s, TestAndSet(q)) && PcOk(w, s, q, s.pc[q])
    ensures Held(w, Apply(w, s, TestAndSet(q)))
  {
    hide Pcs, Mod, Carried, Indexed;
  }

  lemma TestAndSetCarried(w: World, s: Shared, q: nat)
    requires Inv(w, s) && Enabled(w, s, TestAndSet(q)) && PcOk(w, s, q, s.pc[q])
    ensures Carried(w, Apply(w, s, TestAndSet(q))) && Indexed(Apply(w, s, TestAndSet(q)))
  {
    hide Pcs, Mod, Held, FirstZero;
  }

  lemma TestAndSetInv(w: World, s: Shared, q: nat)
    requires Inv(w, s) && Enabled(w, s, TestAndSet(q))
    ensures Inv(w, Apply(w, s, TestAndSet(q)))
  {
    assert PcOk(w, s, q, s.pc[q]);
    hide Pcs, Mod, Held, Carried, Indexed;
    TestAndSetPcs(w, s, q);
    TestAndSetHeld(w, s, q);
    TestAndSetCarried(w, s, q);
  }

  lemma MarkPcs(w: World, s: Shared, q: nat)
    requires Inv(w, s) && Enabled(w, s, Mark(q))
    ensures Pcs(w, Apply(w, s, Mark(q)))
  {
    hide Held, Claimed, FirstZero, Mod;
  }

  lemma MarkInv(w: World, s: Shared, q: nat)
    requires Inv(w, s) && Enabled(w, s, Mark(q))
    ensures Inv(w, Apply(w, s, Mark(q)))
  {
    MarkPcs(w, s, q);
    assert PcOk(w, s, q, s.pc[q]);
    hide Pcs, Mod;
  }

  lemma SetIndexPcs(w: World, s: Shared, q: nat)
    requires Inv(w, s) && Enabled(w, s, SetIndex(q))
    ensures Pcs(w, Apply(w, s, SetIndex(q)))
  {
    hide Held, Claimed, Mod;
  }

  lemma SetIndexInv(w: World, s: Shared, q: nat)
    requires Inv(w, s) && Enabled(w, s, SetIndex(q))
    ensures Inv(w, Apply(w, s, SetIndex(q)))
  {
    SetIndexPcs(w, s, q);
    assert PcOk(w, s, q, s.pc[q]);
    hide Pcs, Mod;
  }

  lemma EndPcs(w: World, s: Shared, rq: nat)
    requires Inv(w, s) && Enabled(w, s, End(rq))
    ensures Pcs(w, Apply(w, s, End(rq)))
  {
    hide Held, Claimed, Mod;
  }

  lemma EndInv(w: World, s: Shared, rq: nat)
    requires Inv(w, s) && Enabled(w, s, End(rq))
    ensures Inv(w, Apply(w, s, End(rq)))
  {
    EndPcs(w, s, rq);
    assert PcOk(w, s, w.queueOf(rq), s.pc[w.queueOf(rq)]);
    hide Pcs, Mod;
  }

  lemma ClearIndexPcs(w: World, s: Shared, q: nat)
    requires Inv(w, s) && Enabled(w, s, ClearIndex(q))
    ensures Pcs(w, Apply(w, s, ClearIndex(q)))
  {
    hide Held, Claimed, FirstZero, Mod;
  }

  lemma ClearIndexInv(w: World, s: Shared, q: nat)
    requires Inv(w, s) && Enabled(w, s, ClearIndex(q))
    ensures Inv(w, Apply(w, s, ClearIndex(q)))
  {
    ClearIndexPcs(w, s, q);
    assert PcOk(w, s, q, s.pc[q]);
    hide Pcs, Mod;
  }

  lemma UnlockPcs(w: World, s: Shared, q: nat)
    requires Inv(w, s) && Enabled(w, s, Unlock(q))
    ensures Pcs(w, Apply(w, s, Unlock(q)))
  {
    hide Held, Claimed, FirstZero, Mod;
  }

  lemma UnlockInv(w: World, s: Shared, q: nat)
    requires Inv(w, s) && Enabled(w, s, Unlock(q))
    ensures Inv(w, Apply(w, s, Unlock(q)))
  {
    UnlockPcs(w, s, q);
    assert PcOk(w, s, q, s.pc[q]);
    hide Pcs, Mod;
  }

  lemma SetDepthInv(w: World, s: Shared, depth: nat)
    requires Inv(w, s) && Enabled(w, s, SetDepth(depth))
    ensures Inv(w, Apply(w, s, SetDepth(depth)))
  {}

  lemma GrowInv(w: World, s: Shared, depth: nat)
    requires Inv(w, s) && Enabled(w, s, Grow(depth))
    ensures Inv(w, Apply(w, s, Grow(depth)))
  {}

  lemma StepInv(w: World, s: Shared, a: Action)
    requires Inv(w, s) && Enabled(w, s, a)
    ensures Inv(w, Apply(w, s, a))
  {
    hide Inv, Enabled, Apply;
    match a
    case Start(rq) => StartInv(w, s, rq);
    case Scan(q) => ScanInv(w, s, q);
    case TestAndSet(q) => TestAndSetInv(w, s, q);
    case Mark(q) => MarkInv(w, s, q);
    case SetIndex(q) => SetIndexInv(w, s, q);
    case End(rq) => EndInv(w, s, rq);
    case ClearIndex(q) => ClearIndexInv(w, s, q);
    case Unlock(q) => UnlockInv(w, s, q);
    case SetDepth(depth) => SetDepthInv(w, s, depth);
    case Grow(depth) => GrowInv(w, s, depth);
  }
}
