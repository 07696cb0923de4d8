/** Merging bios and requests in the elevator: the merge cases of __make_request in
    block/blk-core.c, attempt_merge of block/blk-merge.c and the merge hash of
    block/elevator.c. */
module Merging {
  import opened Options
  import opened Completion

  /** A request the elevator sorts: `pos` is its sector, `write` its direction, `nomerge` the
      flag REQ_NOMERGE. */
  datatype Rq = Rq(bios: seq<Bio>, pos: nat, dataLen: nat, write: bool, ff: set<FailFast>, mixed: bool, nomerge: bool)

  function EndSector(rq: Rq): nat { rq.pos + SectorsOf(rq.dataLen) }

  lemma EndSectorOf(rq: Rq, nomerge: bool)
    ensures EndSector(rq.(nomerge := nomerge)) == EndSector(rq)
  {}

  function BioEnd(b: Bio): nat { b.sector + SectorsOf(b.size) }

  /** A bio with something to do whose size agrees with its vectors and is in whole sectors. */
  predicate Whole(b: Bio) { Sound(b) && WholeSectors(b.size) }

  /** The bios lie back to back on the device. */
  predicate Contiguous(bs: seq<Bio>) {
    && (forall i | 0 <= i < |bs| :: Whole(bs[i]))
    && (forall i | 0 < i < |bs| :: bs[i].sector == BioEnd(bs[i - 1]))
  }

  /** A request is a contiguous chain whose position, length and direction are its bios'. The
      failfast bits of a mixed one are those of its first bio; an unmixed one's cover its bios'. */
  predicate RqOk(rq: Rq) {
    && rq.bios != [] && Contiguous(rq.bios)
    && rq.pos == rq.bios[0].sector && rq.dataLen == Total(rq.bios)
    && (forall i | 0 <= i < |rq.bios| :: rq.bios[i].write == rq.write)
    && (if rq.mixed then rq.ff == rq.bios[0].ff else forall i | 0 <= i < |rq.bios| :: rq.bios[i].ff <= rq.ff)
  }

  /** The failfast bits that apply to bio i of a request. */
  function FfOf(rq: Rq, i: nat): set<FailFast>
    requires i < |rq.bios|
  {
    if rq.mixed then rq.bios[i].ff else rq.ff
  }

  lemma {:induction false} TotalAppend(a: seq<Bio>, b: seq<Bio>)
    ensures Total(a + b) == Total(a) + Total(b)
  {
    if a == [] {
      assert a + b == b;
    } else {
      TotalAppend(a[1..], b);
      assert (a + b)[1..] == a[1..] + b;
    }
  }

  /** The end of a contiguous chain is the end of its last bio. */
  lemma {:induction false} ChainEnd(bs: seq<Bio>)
    requires Contiguous(bs) && bs != []
    ensures bs[0].sector + SectorsOf(Total(bs)) == BioEnd(bs[|bs| - 1]) && WholeSectors(Total(bs))
  {
    var rest := bs[1..];
    if rest == [] {
      assert Total(bs) == bs[0].size;
    } else {
      assert forall i | 0 <= i < |rest| :: rest[i] == bs[i + 1];
      ChainEnd(rest);
      Sectors(bs[0].size, Total(rest));
    }
  }

  // ----- mixed merges

  function WithFf(bs: seq<Bio>, ff: set<FailFast>): (r: seq<Bio>)
    ensures |r| == |bs| && forall i | 0 <= i < |bs| :: r[i] == bs[i].(ff := bs[i].ff + ff)
  {
    seq(|bs|, i requires 0 <= i < |bs| => bs[i].(ff := bs[i].ff + ff))
  }

  /** blk_rq_set_mixed_merge */
  function SetMixed(rq: Rq): Rq {
    if rq.mixed then rq else rq.(bios := WithFf(rq.bios, rq.ff), mixed := true)
  }

  lemma {:induction false} WithFfTotal(bs: seq<Bio>, ff: set<FailFast>)
    ensures Total(WithFf(bs, ff)) == Total(bs)
  {
    if bs != [] {
      WithFfTotal(bs[1..], ff);
      assert WithFf(bs, ff)[1..] == WithFf(bs[1..], ff);
    }
  }

  lemma SetMixedOk(rq: Rq)
    requires RqOk(rq)
    ensures RqOk(SetMixed(rq)) && SetMixed(rq).mixed && EndSector(SetMixed(rq)) == EndSector(rq)
    ensures SetMixed(rq) == rq.(bios := SetMixed(rq).bios, mixed := true) && |SetMixed(rq).bios| == |rq.bios|
    ensures forall i | 0 <= i < |rq.bios| :: SetMixed(rq).bios[i].id == rq.bios[i].id
    ensures forall i | 0 <= i < |rq.bios| :: FfOf(SetMixed(rq), i) == FfOf(rq, i)
  {
    hide SectorsOf, WholeSectors, Total;
    WithFfTotal(rq.bios, rq.ff);
    WithFfContiguous(rq.bios, rq.ff);
    hide Contiguous;
  }

  lemma WithFfContiguous(bs: seq<Bio>, ff: set<FailFast>)
    requires Contiguous(bs)
    ensures Contiguous(WithFf(bs, ff))
  {
    hide SectorsOf, WholeSectors;
  }

  // ----- the three merges

  function BackMerged(rq: Rq, bio: Bio): Rq {
    var r := if rq.ff != bio.ff then SetMixed(rq) else rq;
    r.(bios := r.bios + [bio], dataLen := r.dataLen + bio.size)
  }

  function FrontMerged(rq: Rq, bio: Bio): Rq {
    var r := if rq.ff != bio.ff then SetMixed(rq).(ff := bio.ff) else rq;
    r.(bios := [bio] + r.bios, pos := bio.sector, dataLen := r.dataLen + bio.size)
  }

  function Joined(rq: Rq, next: Rq): Rq {
    var mix := rq.mixed || next.mixed || rq.ff != next.ff;
    var a, b := if mix then SetMixed(rq) else rq, if mix then SetMixed(next) else next;
    a.(bios := a.bios + b.bios, dataLen := a.dataLen + b.dataLen)
  }

  lemma ContiguousAppend(a: seq<Bio>, b: seq<Bio>)
    requires Contiguous(a) && Contiguous(b) && (a != [] && b != [] ==> b[0].sector == BioEnd(a[|a| - 1]))
    ensures Contiguous(a + b)
  {
    hide BioEnd, Whole;
    var c := a + b;
    forall i | 0 < i < |c|
      ensures c[i].sector == BioEnd(c[i - 1])
    {
      if i < |a| {
      } else if i > |a| {
        assert c[i] == b[i - |a|] && c[i - 1] == b[i - |a| - 1];
      }
    }
  }

  lemma BackMergedOk(rq: Rq, bio: Bio)
    requires RqOk(rq) && Whole(bio) && rq.write == bio.write && bio.sector == EndSector(rq)
    ensures RqOk(BackMerged(rq, bio)) && EndSector(BackMerged(rq, bio)) == BioEnd(bio)
  {
    hide SectorsOf, WholeSectors, SetMixed, Contiguous, FfOf, BioEnd, Whole, Total;
    SetMixedOk(rq);
    var r := if rq.ff != bio.ff then SetMixed(rq) else rq;
    ChainEnd(r.bios);
    TotalAppend(r.bios, [bio]);
    SingleChain(bio);
    ContiguousAppend(r.bios, [bio]);
    ChainEnd(r.bios + [bio]);
  }

  lemma SingleChain(bio: Bio)
    requires Whole(bio)
    ensures Contiguous([bio]) && Total([bio]) == bio.size
  {
    assert [bio][1..] == [];
  }

  lemma FrontMergedOk(rq: Rq, bio: Bio)
    requires RqOk(rq) && Whole(bio) && rq.write == bio.write && BioEnd(bio) == rq.pos
    ensures RqOk(FrontMerged(rq, bio)) && EndSector(FrontMerged(rq, bio)) == EndSector(rq)
  {
    hide SectorsOf, WholeSectors, SetMixed, Contiguous, FfOf, BioEnd, Whole, Total;
    SetMixedOk(rq);
    var r := if rq.ff != bio.ff then SetMixed(rq).(ff := bio.ff) else rq;
    SingleChain(bio);
    ContiguousAppend([bio], r.bios);
    TotalAppend([bio], r.bios);
    ChainEnd(r.bios);
    ChainEnd([bio] + r.bios);
  }

  lemma JoinedOk(rq: Rq, next: Rq)
    requires RqOk(rq) && RqOk(next) && rq.write == next.write && next.pos == EndSector(rq)
    ensures RqOk(Joined(rq, next)) && EndSector(Joined(rq, next)) == EndSector(next)
  {
    hide SectorsOf, WholeSectors, SetMixed, Contiguous, FfOf, BioEnd, Whole, Total;
    SetMixedOk(rq);
    SetMixedOk(next);
    var mix := rq.mixed || next.mixed || rq.ff != next.ff;
    var a, b := if mix then SetMixed(rq) else rq, if mix then SetMixed(next) else next;
    ChainEnd(a.bios);
    ChainEnd(b.bios);
    TotalAppend(a.bios, b.bios);
    ContiguousAppend(a.bios, b.bios);
    ChainEnd(a.bios + b.bios);
  }

  // ----- which bios are where

  type Rqs = map<nat, Rq>

  /** Bio b stands at place i of request id. */
  predicate At(rqs: Rqs, id: nat, i: nat, b: nat) { id in rqs && i < |rqs[id].bios| && rqs[id].bios[i].id == b }

  /** No bio is in two places. */
  ghost predicate Unique(rqs: Rqs) {
    forall id: nat, i: nat, id': nat, i': nat, b: nat | At(rqs, id, i, b) && At(rqs, id', i', b) :: id == id' && i == i'
  }

  ghost predicate Has(rqs: Rqs, b: nat) { exists id: nat, i: nat :: At(rqs, id, i, b) }

  /** The same bios as before, and `more` besides. */
  ghost predicate SameBios(rqs: Rqs, rqs': Rqs, more: set<nat>) {
    forall b: nat :: Has(rqs', b) <==> Has(rqs, b) || b in more
  }

  /** Joining keeps every bio's id and the failfast bits that apply to it. */
  lemma JoinedIds(rq: Rq, next: Rq, i: nat)
    requires RqOk(rq) && RqOk(next) && i < |rq.bios| + |next.bios|
    ensures |Joined(rq, next).bios| == |rq.bios| + |next.bios|
    ensures Joined(rq, next).bios[i].id == if i < |rq.bios| then rq.bios[i].id else next.bios[i - |rq.bios|].id
    ensures FfOf(Joined(rq, next), i) == if i < |rq.bios| then FfOf(rq, i) else FfOf(next, i - |rq.bios|)
  {
    hide SetMixed, RqOk;
    SetMixedOk(rq);
    SetMixedOk(next);
  }

  /** Where a bio of the joined map was before. */
  lemma JoinMoves(rqs: Rqs, req: nat, next: nat, id: nat, i: nat, b: nat)
    requires req in rqs && next in rqs && req != next && RqOk(rqs[req]) && RqOk(rqs[next])
    ensures var rqs' := rqs[req := Joined(rqs[req], rqs[next])] - {next};
            At(rqs', id, i, b) <==>
              if id == req then (if i < |rqs[req].bios| then At(rqs, req, i, b) else At(rqs, next, i - |rqs[req].bios|, b))
              else id != next && At(rqs, id, i, b)
  {
    hide Joined, RqOk;
    if i < |rqs[req].bios| + |rqs[next].bios| {
      JoinedIds(rqs[req], rqs[next], i);
    } else {
      JoinedIds(rqs[req], rqs[next], 0) by { NonEmpty(rqs[req]); }
    }
  }

  lemma NonEmpty(rq: Rq)
    requires RqOk(rq)
    ensures |rq.bios| > 0
  {}

  /** Joining two requests loses and duplicates nothing. */
  lemma JoinKeepsBios(rqs: Rqs, req: nat, next: nat)
    requires req in rqs && next in rqs && req != next && RqOk(rqs[req]) && RqOk(rqs[next]) && Unique(rqs)
    ensures var rqs' := rqs[req := Joined(rqs[req], rqs[next])] - {next};
            Unique(rqs') && SameBios(rqs, rqs', {})
  {
    hide Joined, RqOk, At;
    var rqs' := rqs[req := Joined(rqs[req], rqs[next])] - {next};
    var n := |rqs[req].bios|;
    forall id: nat, i: nat, id': nat, i': nat, b: nat | At(rqs', id, i, b) && At(rqs', id', i', b)
      ensures id == id' && i == i'
    {
      JoinMoves(rqs, req, next, id, i, b);
      JoinMoves(rqs, req, next, id', i', b);
    }
    forall b: nat
      ensures Has(rqs', b) <==> Has(rqs, b)
    {
      if Has(rqs', b) {
        var id: nat, i: nat :| At(rqs', id, i, b);
        JoinMoves(rqs, req, next, id, i, b);
      }
      if Has(rqs, b) {
        var id: nat, i: nat :| At(rqs, id, i, b);
        if id == next {
          JoinMoves(rqs, req, next, req, n + i, b);
        } else {
          if id == req { assert i < n by { AtBound(rqs, id, i, b); } }
          JoinMoves(rqs, req, next, id, i, b);
        }
      }
    }
  }

  lemma AtBound(rqs: Rqs, id: nat, i: nat, b: nat)
    requires At(rqs, id, i, b)
    ensures id in rqs && i < |rqs[id].bios|
  {}

  /** A bio was added at the end of a request (shift 0) or at its front: every bio keeps its id
      and the failfast bits that apply to it, and the new one has those it came with. */
  ghost predicate Added(rq: Rq, rq': Rq, bio: Bio, shift: nat) {
    && shift <= 1
    && |rq'.bios| == |rq.bios| + 1
    && (forall i | 0 <= i < |rq.bios| :: rq'.bios[i + shift].id == rq.bios[i].id && FfOf(rq', i + shift) == FfOf(rq, i))
    && rq'.bios[if shift == 0 then |rq.bios| else 0].id == bio.id
    && FfOf(rq', if shift == 0 then |rq.bios| else 0) == bio.ff
  }

  lemma BackMergedAdds(rq: Rq, bio: Bio)
    requires RqOk(rq)
    ensures Added(rq, BackMerged(rq, bio), bio, 0)
  {
    hide SetMixed, RqOk;
    SetMixedOk(rq);
  }

  lemma FrontMergedAdds(rq: Rq, bio: Bio)
    requires RqOk(rq)
    ensures Added(rq, FrontMerged(rq, bio), bio, 1)
  {
    FrontMergedHead(rq, bio);
    hide FrontMerged, RqOk, FfOf;
    var rq' := FrontMerged(rq, bio);
    forall i | 0 <= i < |rq.bios|
      ensures rq'.bios[i + 1].id == rq.bios[i].id && FfOf(rq', i + 1) == FfOf(rq, i)
    {
      FrontMergedAt(rq, bio, i);
    }
  }

  lemma FrontMergedHead(rq: Rq, bio: Bio)
    requires RqOk(rq)
    ensures var rq' := FrontMerged(rq, bio);
            |rq'.bios| == |rq.bios| + 1 && rq'.bios[0] == bio && FfOf(rq', 0) == bio.ff
  {
    hide SetMixed, RqOk;
    SetMixedOk(rq);
  }

  lemma FrontMergedAt(rq: Rq, bio: Bio, i: nat)
    requires RqOk(rq) && i < |rq.bios| && |FrontMerged(rq, bio).bios| == |rq.bios| + 1
    ensures var rq' := FrontMerged(rq, bio);
            rq'.bios[i + 1].id == rq.bios[i].id && FfOf(rq', i + 1) == FfOf(rq, i)
  {
    hide SetMixed, RqOk;
    SetMixedOk(rq);
  }

  /** Where a bio was before one was added. */
  lemma AddMoves(rqs: Rqs, id: nat, rq': Rq, bio: Bio, shift: nat, id': nat, i: nat, b: nat)
    requires id in rqs && shift <= 1 && Added(rqs[id], rq', bio, shift)
    ensures var n := |rqs[id].bios|; var place := if shift == 0 then n else 0;
            At(rqs[id := rq'], id', i, b) <==>
              if id' != id then At(rqs, id', i, b)
              else if i == place then b == bio.id
              else i >= shift && At(rqs, id, i - shift, b)
  {
    var rq := rqs[id];
    if id' == id && shift <= i < |rq.bios| + shift {
      assert rq'.bios[(i - shift) + shift].id == rq.bios[i - shift].id;
    }
  }

  /** Adding a bio that no request holds adds just that one. */
  lemma AddKeepsBios(rqs: Rqs, id: nat, rq': Rq, bio: Bio, shift: nat)
    requires id in rqs && shift <= 1 && Added(rqs[id], rq', bio, shift) && Unique(rqs) && !Has(rqs, bio.id)
    ensures Unique(rqs[id := rq']) && SameBios(rqs, rqs[id := rq'], {bio.id})
  {
    hide At, Added;
    var rqs' := rqs[id := rq'];
    forall x: nat, i: nat, y: nat, j: nat, b: nat | At(rqs', x, i, b) && At(rqs', y, j, b)
      ensures x == y && i == j
    {
      AddMoves(rqs, id, rq', bio, shift, x, i, b);
      AddMoves(rqs, id, rq', bio, shift, y, j, b);
    }
    forall b: nat
      ensures Has(rqs', b) <==> Has(rqs, b) || b == bio.id
    {
      if Has(rqs', b) {
        var x: nat, i: nat :| At(rqs', x, i, b);
        AddMoves(rqs, id, rq', bio, shift, x, i, b);
      }
      if b == bio.id {
        AddMoves(rqs, id, rq', bio, shift, id, if shift == 0 then |rqs[id].bios| else 0, b);
      }
      if Has(rqs, b) {
        var x: nat, i: nat :| At(rqs, x, i, b);
        AtBound(rqs, x, i, b);
        AddMoves(rqs, id, rq', bio, shift, x, if x == id then i + shift else i, b);
      }
    }
  }

  // ----- the merge hash

  ghost predicate AllOk(rqs: Rqs, max: nat) {
    forall id | id in rqs :: RqOk(rqs[id]) && (|rqs[id].bios| > 1 ==> SectorsOf(rqs[id].dataLen) <= max)
  }

  /** Every hashed request but `stale` is in the bucket of its end, every mergeable request of the
      scheduler is hashed, and none that left it. */
  ghost predicate Hashed(hash: nat -> nat, rqs: Rqs, sorted: set<nat>, bucket: map<nat, nat>, stale: set<nat>) {
    && bucket.Keys <= sorted && sorted <= rqs.Keys
    && (forall id | id in bucket && id !in stale :: bucket[id] == hash(EndSector(rqs[id])))
    && (forall id | id in sorted && !rqs[id].nomerge :: id in bucket)
  }

  datatype Merge = NoMerge | Back(rq: nat) | Front(rq: nat)

  /** elv_rq_merge_ok, as far as the request and the bio decide it. */
  predicate CanTake(rq: Rq, bio: Bio) { !rq.nomerge && rq.write == bio.write }

  /** What attempt_merge asks of two requests. */
  predicate CanJoin(rq: Rq, next: Rq, max: nat) {
    && !rq.nomerge && !next.nomerge && EndSector(rq) == next.pos && rq.write == next.write
    && SectorsOf(rq.dataLen) + SectorsOf(next.dataLen) <= max
  }

  /** The requests once two of them have been joined, if they may be. */
  function MaybeJoined(rqs: Rqs, req: nat, next: nat, may: bool, max: nat): Rqs
    requires req in rqs && next in rqs
  {
    if may && CanJoin(rqs[req], rqs[next], max) then rqs[req := Joined(rqs[req], rqs[next])] - {next} else rqs
  }

  /** What a back merge leaves: the bio at the end of the request, and the next request joined to it if
      they now touch. */
  function AfterBack(rqs: Rqs, id: nat, bio: Bio, latter: Option<nat>, joins: bool, max: nat): Rqs
    requires id in rqs && (latter.Some? ==> latter.value in rqs)
  {
    var r := rqs[id := BackMerged(rqs[id], bio)];
    if latter.Some? then MaybeJoined(r, id, latter.value, joins, max) else r
  }

  /** And a front merge: the request joined to the one before it. */
  function AfterFront(rqs: Rqs, id: nat, bio: Bio, former: Option<nat>, joins: bool, max: nat): Rqs
    requires id in rqs && (former.Some? ==> former.value in rqs)
  {
    var r := rqs[id := FrontMerged(rqs[id], bio)];
    if former.Some? then MaybeJoined(r, former.value, id, joins, max) else r
  }

  lemma CanJoinIs(a: Rq, b: Rq, max: nat)
    ensures CanJoin(a, b, max) <==>
              && !a.nomerge && !b.nomerge && a.pos + SectorsOf(a.dataLen) == b.pos && a.write == b.write
              && SectorsOf(a.dataLen) + SectorsOf(b.dataLen) <= max
  {}

  ghost predicate Fresh(rqs: Rqs, bio: Bio) { Whole(bio) && !Has(rqs, bio.id) }

  /** What code outside this model decides while a bio is submitted: the merge settings of the
      queue, the requests whose device, integrity and scheduler admit the bio, the scheduler's
      neighbours of a request and the one it finds at the bio's end, and whether the segments
      fit. */
  datatype Choices = Choices(nomerges: bool, noxmerges: bool, allowed: set<nat>, front: Option<nat>,
                             former: map<nat, nat>, latter: map<nat, nat>, fits: bool, joins: bool)

  predicate Sensible(rqs: Rqs, sorted: set<nat>, bio: Bio, env: Choices) {
    && (env.front.Some? ==> env.front.value in sorted && env.front.value in rqs && rqs[env.front.value].pos == BioEnd(bio))
    && (forall id | id in env.former :: env.former[id] in sorted && env.former[id] != id)
    && (forall id | id in env.latter :: env.latter[id] in sorted && env.latter[id] != id)
  }

  /** Some request could take the bio at its end. */
  predicate BackCandidate(rqs: Rqs, sorted: set<nat>, bio: Bio) {
    exists id :: id in sorted && id in rqs && !rqs[id].nomerge && rqs[id].write == bio.write && EndSector(rqs[id]) == bio.sector
  }

  /** A request for one bio; a read-ahead one fails fast in every way, and one that went to the back of
      the dispatch list is not merged with. */
  function Alone(bio: Bio, ahead: bool, back: bool): Rq {
    Rq([bio], bio.sector, bio.size, bio.write, if ahead then {Device, Transport, Driver} else bio.ff, false, back)
  }

  /** Why a request next to a bio does not take it. */
  predicate Unfit(rq: Rq, id: nat, bio: Bio, env: Choices, max: nat) {
    && (EndSector(rq) == bio.sector || BioEnd(bio) == rq.pos)
    && (id !in env.allowed || rq.write != bio.write || SectorsOf(rq.dataLen) + SectorsOf(bio.size) > max)
  }

  lemma AllFailFast(ff: set<FailFast>)
    ensures ff <= {Device, Transport, Driver}
  {
    forall x | x in ff
      ensures x in {Device, Transport, Driver}
    {
      match x case Device => case Transport => case Driver =>
    }
  }

  lemma AllOkAt(rqs: Rqs, max: nat, id: nat)
    requires AllOk(rqs, max) && id in rqs
    ensures RqOk(rqs[id])
  {}

  lemma AllOkPut(rqs: Rqs, id: nat, rq: Rq, max: nat)
    requires AllOk(rqs, max) && RqOk(rq) && (|rq.bios| > 1 ==> SectorsOf(rq.dataLen) <= max)
    ensures AllOk(rqs[id := rq], max)
  {
    hide RqOk, SectorsOf;
  }

  lemma WholeRq(rq: Rq)
    requires RqOk(rq)
    ensures WholeSectors(rq.dataLen)
  {
    ChainEnd(rq.bios);
  }

  lemma JoinStays(rqs: Rqs, req: nat, next: nat, max: nat)
    requires AllOk(rqs, max) && req in rqs && next in rqs && req != next && Unique(rqs)
    requires CanJoin(rqs[req], rqs[next], max)
    ensures var rqs' := rqs[req := Joined(rqs[req], rqs[next])] - {next};
            && AllOk(rqs', max) && Unique(rqs') && SameBios(rqs, rqs', {})
            && !rqs'[req].nomerge
  {
    hide Unique, SameBios;
    AllOkAt(rqs, max, req);
    AllOkAt(rqs, max, next);
    hide RqOk, SetMixed;
    JoinKeepsBios(rqs, req, next);
    JoinedOk(rqs[req], rqs[next]);
    SetMixedOk(rqs[req]);
    SetMixedOk(rqs[next]);
    WholeRq(rqs[req]);
    Sectors(rqs[req].dataLen, rqs[next].dataLen);
    hide SectorsOf, WholeSectors;
    AllOkPut(rqs, req, Joined(rqs[req], rqs[next]), max);
  }

  lemma BackStays(rqs: Rqs, id: nat, bio: Bio, max: nat)
    requires AllOk(rqs, max) && id in rqs && Fresh(rqs, bio) && Unique(rqs) && EndSector(rqs[id]) == bio.sector && rqs[id].write == bio.write
    requires SectorsOf(rqs[id].dataLen) + SectorsOf(bio.size) <= max
    ensures var rqs' := rqs[id := BackMerged(rqs[id], bio)];
            && AllOk(rqs', max) && Unique(rqs') && SameBios(rqs, rqs', {bio.id})
            && rqs'[id].nomerge == rqs[id].nomerge
  {
    hide Unique, SameBios;
    AllOkAt(rqs, max, id);
    hide RqOk, SetMixed;
    BackMergedOk(rqs[id], bio);
    BackMergedAdds(rqs[id], bio);
    AddKeepsBios(rqs, id, BackMerged(rqs[id], bio), bio, 0);
    SetMixedOk(rqs[id]);
    WholeRq(rqs[id]);
    Sectors(rqs[id].dataLen, bio.size);
    AllOkPut(rqs, id, BackMerged(rqs[id], bio), max);
  }

  lemma FrontStays(rqs: Rqs, id: nat, bio: Bio, max: nat)
    requires AllOk(rqs, max) && id in rqs && Fresh(rqs, bio) && Unique(rqs) && BioEnd(bio) == rqs[id].pos && rqs[id].write == bio.write
    requires SectorsOf(rqs[id].dataLen) + SectorsOf(bio.size) <= max
    ensures var rqs' := rqs[id := FrontMerged(rqs[id], bio)];
            && AllOk(rqs', max) && Unique(rqs') && SameBios(rqs, rqs', {bio.id})
            && rqs'[id].nomerge == rqs[id].nomerge && EndSector(rqs'[id]) == EndSector(rqs[id])
  {
    hide Unique, SameBios;
    AllOkAt(rqs, max, id);
    hide RqOk, SetMixed;
    FrontMergedOk(rqs[id], bio);
    FrontMergedAdds(rqs[id], bio);
    AddKeepsBios(rqs, id, FrontMerged(rqs[id], bio), bio, 1);
    SetMixedOk(rqs[id]);
    WholeRq(rqs[id]);
    Sectors(rqs[id].dataLen, bio.size);
    AllOkPut(rqs, id, FrontMerged(rqs[id], bio), max);
  }

  lemma NomergeStays(rqs: Rqs, id: nat, max: nat)
    requires AllOk(rqs, max) && id in rqs && Unique(rqs)
    ensures var rqs' := rqs[id := rqs[id].(nomerge := true)];
            AllOk(rqs', max) && Unique(rqs') && SameBios(rqs, rqs', {})
  {
    var rqs' := rqs[id := rqs[id].(nomerge := true)];
    AllOkPut(rqs, id, rqs[id].(nomerge := true), max);
    hide AllOk;
    assert forall x: nat, i: nat, b: nat :: At(rqs', x, i, b) <==> At(rqs, x, i, b);
  }

  lemma NewStays(rqs: Rqs, id: nat, bio: Bio, rq: Rq, max: nat)
    requires AllOk(rqs, max) && id !in rqs && Unique(rqs) && Fresh(rqs, bio)
    requires rq.bios == [bio] && rq.write == bio.write && rq.pos == bio.sector && rq.dataLen == bio.size && bio.ff <= rq.ff && !rq.mixed
    ensures var rqs' := rqs[id := rq];
            AllOk(rqs', max) && Unique(rqs') && SameBios(rqs, rqs', {bio.id}) && At(rqs', id, 0, bio.id)
  {
    var rqs' := rqs[id := rq];
    assert RqOk(rq) by { SingleChain(bio); }
    AllOkPut(rqs, id, rq, max);
    hide AllOk, RqOk, Whole;
    assert forall x: nat, i: nat, b: nat :: At(rqs', x, i, b) <==> if x == id then i == 0 && b == bio.id else At(rqs, x, i, b);
    hide At;
    assert At(rqs', id, 0, bio.id);
    forall b: nat | Has(rqs, b)
      ensures Has(rqs', b)
    {
      var x: nat, i: nat :| At(rqs, x, i, b);
      assert At(rqs', x, i, b) by { AtBound(rqs, x, i, b); }
    }
  }

  /** The hash after request id became rq. */
  lemma HashedPut(hash: nat -> nat, rqs: Rqs, sorted: set<nat>, bucket: map<nat, nat>, id: nat, rq: Rq)
    requires Hashed(hash, rqs, sorted, bucket, {}) && id in sorted && (!rq.nomerge ==> !rqs[id].nomerge)
    ensures Hashed(hash, rqs[id := rq], sorted, bucket, if EndSector(rq) == EndSector(rqs[id]) then {} else {id})
    ensures Hashed(hash, rqs[id := rq], sorted, bucket, {id})
  {
    hide EndSector;
  }

  lemma HashedStale(hash: nat -> nat, rqs: Rqs, sorted: set<nat>, bucket: map<nat, nat>, id: nat)
    requires Hashed(hash, rqs, sorted, bucket, {})
    ensures Hashed(hash, rqs, sorted, bucket, {id})
  {
    hide EndSector;
  }

  lemma HashedMoved(hash: nat -> nat, rqs: Rqs, sorted: set<nat>, bucket: map<nat, nat>, id: nat)
    requires Hashed(hash, rqs, sorted, bucket, {id}) && id in sorted
    ensures Hashed(hash, rqs, sorted, bucket[id := hash(EndSector(rqs[id]))], {})
  {
    hide EndSector;
  }

  lemma HashedJoin(hash: nat -> nat, rqs: Rqs, sorted: set<nat>, bucket: map<nat, nat>, req: nat, next: nat, rq: Rq)
    requires Hashed(hash, rqs, sorted, bucket, {req}) && req in sorted && next in sorted && req != next
    ensures Hashed(hash, rqs[req := rq] - {next}, sorted - {next}, bucket[req := hash(EndSector(rq))] - {next}, {})
  {
    hide EndSector;
  }

  lemma HashedNew(hash: nat -> nat, rqs: Rqs, sorted: set<nat>, bucket: map<nat, nat>, id: nat, rq: Rq)
    requires Hashed(hash, rqs, sorted, bucket, {}) && id !in rqs
    ensures Hashed(hash, rqs[id := rq], sorted + {id}, bucket[id := hash(EndSector(rq))], {})
    ensures Hashed(hash, rqs[id := rq], sorted, bucket, {})
  {
    hide EndSector;
  }

  lemma HashedLeft(hash: nat -> nat, rqs: Rqs, sorted: set<nat>, bucket: map<nat, nat>, id: nat)
    requires Hashed(hash, rqs, sorted, bucket, {})
    ensures Hashed(hash, rqs, sorted - {id}, bucket - {id}, {})
    ensures id !in sorted ==> Hashed(hash, rqs - {id}, sorted, bucket, {})
  {
    hide EndSector;
  }

  /** Taking a request out takes its bios and no others. */
  lemma TakeKeepsBios(rqs: Rqs, id: nat, max: nat)
    requires AllOk(rqs, max) && Unique(rqs) && id in rqs
    ensures AllOk(rqs - {id}, max) && Unique(rqs - {id})
    ensures forall b: nat :: Has(rqs, b) <==> Has(rqs - {id}, b) || exists i: nat :: At(rqs, id, i, b)
    ensures forall i: nat, b: nat | At(rqs, id, i, b) :: !Has(rqs - {id}, b)
  {
    hide RqOk, SectorsOf;
    assert forall x: nat, i: nat, b: nat :: At(rqs - {id}, x, i, b) <==> At(rqs, x, i, b) && x != id;
    hide AllOk, At;
  }

  /** A request that is merged well can be served and failed: its bios are sound, and a mixed one's
      failfast bits are its first bio's. */
  lemma RqIsServable(rq: Rq)
    requires RqOk(rq)
    ensures AllSound(rq.bios) && rq.bios != [] && rq.dataLen == Total(rq.bios) > 0 && (rq.mixed ==> rq.ff <= rq.bios[0].ff)
  {
    hide Sound, WholeSectors;
    assert Whole(rq.bios[0]);
    assert rq.bios[0].size > 0 by { SizePositive(rq.bios[0]); }
  }

  // ----- a request that completed in part

  lemma AdvanceWhole(b: Bio, n: nat, error: int)
    requires Whole(b) && WholeSectors(n) && n < b.size
    ensures var b' := Advance(b, n, error);
            && Whole(b') && b'.sector == b.sector + SectorsOf(n) && BioEnd(b') == BioEnd(b)
            && b'.write == b.write && b'.ff == b.ff
  {
    AdvanceSound(b, n, error);
    hide Sound, Live, Reach, Cut;
  }

  lemma ContiguousTail(bs: seq<Bio>)
    requires Contiguous(bs) && bs != []
    ensures Whole(bs[0]) && Contiguous(bs[1..]) && (|bs| > 1 ==> bs[1].sector == BioEnd(bs[0]))
  {
    hide Whole, BioEnd;
    assert forall i | 0 <= i < |bs[1..]| :: bs[1..][i] == bs[i + 1];
  }

  lemma ContiguousCons(b: Bio, rest: seq<Bio>)
    requires Whole(b) && Contiguous(rest) && (rest != [] ==> rest[0].sector == BioEnd(b))
    ensures Contiguous([b] + rest)
  {
    hide Whole, BioEnd;
    ContiguousOne(b);
    ContiguousAppend([b], rest);
  }

  lemma ContiguousOne(b: Bio)
    requires Whole(b)
    ensures Contiguous([b])
  {
    hide Whole;
  }

  /** What whole sectors of progress leave is back to back, and starts where they end. */
  lemma {:induction false} FinishContiguous(bs: seq<Bio>, n: nat, error: int)
    requires Contiguous(bs) && AllSound(bs) && WholeSectors(n) && n < Total(bs)
    ensures var left := Finish(bs, n, error).0;
            left != [] && Contiguous(left) && left[0].sector == bs[0].sector + SectorsOf(n)
    decreases |bs|
  {
    var b, rest := bs[0], bs[1..];
    ContiguousTail(bs);
    hide Finish, Sound, Contiguous, Advance, AllSound;
    if n >= b.size {
      FinishGoesOn(bs, n, error);
      Sectors(b.size, n - b.size);
      FinishContiguous(rest, n - b.size, error);
    } else {
      FinishStops(bs, n, error);
      AdvanceWhole(b, n, error);
      ContiguousCons(Advance(b, n, error), rest);
    }
  }

  /** A request that completed whole sectors is still one that merges built, from its new sector on. */
  lemma ProgressStaysOk(rq: Rq, n: nat, error: int)
    requires RqOk(rq) && WholeSectors(n) && n < rq.dataLen
    ensures AllSound(rq.bios)
    ensures var p := Progress(Rest(rq.bios, rq.dataLen, rq.pos, rq.ff, rq.mixed), n, error);
            RqOk(rq.(bios := p.bios, dataLen := p.dataLen, pos := p.sector, ff := p.ff))
  {
    RqIsServable(rq);
    FinishContiguous(rq.bios, n, error);
    ProgressIs(Rest(rq.bios, rq.dataLen, rq.pos, rq.ff, rq.mixed), n, error);
    hide Finish, Progress, Contiguous, AllSound, SectorsOf, WholeSectors, Total, StartOf;
    var (left, ended) := Finish(rq.bios, n, error);
    forall i | 0 <= i < |left|
      ensures left[i].write == rq.write && (!rq.mixed ==> left[i].ff <= rq.ff)
    {
      LeftAt(rq.bios, n, error, i);
    }
  }

  lemma SameBiosRefl(rqs: Rqs)
    ensures SameBios(rqs, rqs, {})
  {}

  lemma SameBiosFresh(a: Rqs, b: Rqs, bio: Bio)
    requires Fresh(a, bio) && (SameBios(a, b, {}) || a == b)
    ensures Fresh(b, bio)
  {}

  lemma SameBiosThen(a: Rqs, b: Rqs, c: Rqs, more: set<nat>)
    requires SameBios(b, c, more) && (SameBios(a, b, {}) || a == b)
    ensures SameBios(a, c, more)
  {}

  lemma SameBiosTwice(a: Rqs, b: Rqs, c: Rqs, more: set<nat>)
    requires SameBios(a, b, more) && (SameBios(b, c, {}) || b == c)
    ensures SameBios(a, c, more)
  {}

  class MergeQueue {
    const hash: nat -> nat     // ELV_HASH_FN
    const maxSectors: nat      // queue_max_sectors
    var rqs: Rqs               // the requests of the queue
    var sorted: set<nat>       // those with the scheduler; the others are on the dispatch list
    var bucket: map<nat, nat>  // for the requests on the hash, their bucket
    var lastMerge: Option<nat>

    ghost predicate ValidBut(stale: set<nat>)
      reads this
    {
      && AllOk(rqs, maxSectors) && Unique(rqs) && Hashed(hash, rqs, sorted, bucket, stale)
      && sorted <= rqs.Keys && (lastMerge.Some? ==> lastMerge.value in sorted)
    }

    ghost predicate Valid()
      reads this
    {
      ValidBut({})
    }

    constructor (h: nat -> nat, max: nat)
      ensures Valid() && rqs == map[] && sorted == {} && hash == h && maxSectors == max
    {
      hash, maxSectors := h, max;
      rqs, sorted, bucket, lastMerge := map[], {}, map[], None;
    }

    /** elv_rqhash_reposition */
    method Reposition(id: nat)
      requires ValidBut({id}) && id in sorted
      modifies this`bucket
      ensures Valid()
    {
      hide AllOk, Unique, Hashed, SameBios, Fresh, Joined, BackMerged, FrontMerged, CanJoin, EndSector, SectorsOf, At;
      HashedMoved(hash, rqs, sorted, bucket, id);
      bucket := bucket[id := hash(EndSector(rqs[id]))];
    }

    /** elv_rqhash_find: a mergeable request that ends at `offset`, if there is one. */
    method FindEnding(offset: nat) returns (r: Option<nat>)
      requires Valid()
      modifies this`bucket
      ensures Valid()
      ensures r.Some? ==> r.value in sorted && !rqs[r.value].nomerge && EndSector(rqs[r.value]) == offset
      ensures r.None? ==> forall id | id in sorted && !rqs[id].nomerge :: EndSector(rqs[id]) != offset
    {
      hide AllOk, Unique, EndSector;
      var chain := set id | id in bucket && bucket[id] == hash(offset);
      while chain != {}
        invariant Valid() && chain <= bucket.Keys
        invariant forall id | id in sorted && !rqs[id].nomerge && id !in chain :: EndSector(rqs[id]) != offset
        decreases chain
      {
        var id :| id in chain;
        chain := chain - {id};
        if rqs[id].nomerge {
          bucket := bucket - {id};
        } else if EndSector(rqs[id]) == offset {
          return Some(id);
        }
      }
      return None;
    }

    /** attempt_merge: `fits` says that the segments of both fit the queue's limit. */
    method AttemptMerge(req: nat, next: nat, fits: bool) returns (merged: bool)
      requires ValidBut({req}) && req in sorted && next in sorted && req != next
      modifies this
      ensures merged <==> fits && old(CanJoin(rqs[req], rqs[next], maxSectors))
      ensures var a, b := old(rqs)[req], old(rqs)[next];
              merged <==> fits && !a.nomerge && !b.nomerge && a.pos + SectorsOf(a.dataLen) == b.pos && a.write == b.write
                          && SectorsOf(a.dataLen) + SectorsOf(b.dataLen) <= maxSectors
      ensures merged ==> Valid() && SameBios(old(rqs), rqs, {})
      ensures merged ==> rqs == old(rqs)[req := Joined(old(rqs)[req], old(rqs)[next])] - {next}
      ensures merged ==> sorted == old(sorted) - {next} && lastMerge == Some(req)
      ensures !merged ==> unchanged(this)
    {
      hide AllOk, Unique, Hashed, SameBios, Fresh, Joined, BackMerged, FrontMerged, CanJoin, EndSector, SectorsOf, At;
      CanJoinIs(rqs[req], rqs[next], maxSectors);
      if !fits || !CanJoin(rqs[req], rqs[next], maxSectors) { return false; }
      JoinStays(rqs, req, next, maxSectors);
      var rq := Joined(rqs[req], rqs[next]);
      HashedJoin(hash, rqs, sorted, bucket, req, next, rq);
      rqs := rqs[req := rq] - {next};
      sorted := sorted - {next};
      bucket := bucket[req := hash(EndSector(rq))] - {next};
      lastMerge := Some(req);
      return true;
    }

    /** The back-merge case of __make_request; `latter` is the request the scheduler says comes
        next, and the segment limit admits the bio, and then the join, as `fits` and `joins` say. */
    method BackMerge(id: nat, bio: Bio, latter: Option<nat>, fits: bool, joins: bool) returns (merged: bool)
      requires Valid() && Fresh(rqs, bio) && id in sorted && CanTake(rqs[id], bio) && EndSector(rqs[id]) == bio.sector
      requires latter.Some? ==> latter.value in sorted && latter.value != id
      modifies this
      ensures Valid()
      ensures merged <==> fits && SectorsOf(old(rqs)[id].dataLen) + SectorsOf(bio.size) <= maxSectors
      ensures SameBios(old(rqs), rqs, if merged then {bio.id} else {}) && rqs.Keys <= old(rqs).Keys
      ensures rqs == if merged then AfterBack(old(rqs), id, bio, latter, joins, maxSectors)
                     else old(rqs)[id := old(rqs)[id].(nomerge := true)]
      ensures merged ==> lastMerge == Some(id)
    {
      hide AllOk, Unique, Hashed, SameBios, Fresh, Joined, BackMerged, FrontMerged, CanJoin, EndSector, SectorsOf, At;
      if SectorsOf(rqs[id].dataLen) + SectorsOf(bio.size) > maxSectors || !fits {
        Refuse(id);
        return false;
      }
      BackStays(rqs, id, bio, maxSectors);
      var rq := BackMerged(rqs[id], bio);
      HashedPut(hash, rqs, sorted, bucket, id, rq);
      ghost var before := rqs;
      rqs := rqs[id := rq];
      ghost var between := rqs;
      var joined := false;
      if latter.Some? {
        joined := AttemptMerge(id, latter.value, joins);
      }
      if !joined {
        Reposition(id);
        lastMerge := Some(id);
      }
      SameBiosTwice(before, between, rqs, {bio.id});
      return true;
    }

    /** The front-merge case of __make_request; `former` is the request the scheduler says comes
        before. */
    method FrontMerge(id: nat, bio: Bio, former: Option<nat>, fits: bool, joins: bool) returns (merged: bool)
      requires Valid() && Fresh(rqs, bio) && id in sorted && CanTake(rqs[id], bio) && BioEnd(bio) == rqs[id].pos
      requires former.Some? ==> former.value in sorted && former.value != id
      modifies this
      ensures Valid()
      ensures merged <==> fits && SectorsOf(old(rqs)[id].dataLen) + SectorsOf(bio.size) <= maxSectors
      ensures SameBios(old(rqs), rqs, if merged then {bio.id} else {}) && rqs.Keys <= old(rqs).Keys
      ensures rqs == if merged then AfterFront(old(rqs), id, bio, former, joins, maxSectors)
                     else old(rqs)[id := old(rqs)[id].(nomerge := true)]
      ensures merged ==> lastMerge.Some? && lastMerge.value in sorted
    {
      hide AllOk, Unique, Hashed, SameBios, Fresh, Joined, BackMerged, FrontMerged, CanJoin, EndSector, SectorsOf, At;
      if SectorsOf(rqs[id].dataLen) + SectorsOf(bio.size) > maxSectors || !fits {
        Refuse(id);
        return false;
      }
      FrontStays(rqs, id, bio, maxSectors);
      var rq := FrontMerged(rqs[id], bio);
      HashedPut(hash, rqs, sorted, bucket, id, rq);
      ghost var before := rqs;
      rqs := rqs[id := rq];
      ghost var between := rqs;
      var joined := false;
      if former.Some? {
        HashedStale(hash, rqs, sorted, bucket, former.value);
        joined := AttemptMerge(former.value, id, joins);
      }
      if !joined {
        lastMerge := Some(id);
      }
      SameBiosTwice(before, between, rqs, {bio.id});
      return true;
    }

    /** ll_back_merge_fn, ll_front_merge_fn and ll_new_hw_segment when they refuse: a request that
        would grow too large, or have too many segments, is never merged again. */
    method Refuse(id: nat)
      requires Valid() && id in sorted
      modifies this`rqs, this`lastMerge
      ensures Valid() && SameBios(old(rqs), rqs, {})
      ensures rqs == old(rqs)[id := old(rqs)[id].(nomerge := true)]
      ensures lastMerge == if old(lastMerge) == Some(id) then None else old(lastMerge)
    {
      hide AllOk, Unique, Hashed, SameBios, Fresh, Joined, BackMerged, FrontMerged, CanJoin, EndSector, SectorsOf, At;
      NomergeStays(rqs, id, maxSectors);
      HashedPut(hash, rqs, sorted, bucket, id, rqs[id].(nomerge := true));
      assert EndSector(rqs[id].(nomerge := true)) == EndSector(rqs[id]) by { EndSectorOf(rqs[id], true); }
      rqs := rqs[id := rqs[id].(nomerge := true)];
      if lastMerge == Some(id) {
        lastMerge := None;
      }
    }

    /** The part of elv_dispatch_sort and elv_dispatch_add_tail that the merge code sees: a request
        that goes to the dispatch list leaves the hash and the one-hit cache. */
    method Dispatch(id: nat)
      requires Valid() && id in sorted
      modifies this`sorted, this`bucket, this`lastMerge
      ensures Valid() && sorted == old(sorted) - {id} && id !in bucket && lastMerge != Some(id)
    {
      hide AllOk, Unique, Hashed, SameBios, Fresh, Joined, BackMerged, FrontMerged, CanJoin, EndSector, SectorsOf, At;
      HashedLeft(hash, rqs, sorted, bucket, id);
      if lastMerge == Some(id) {
        lastMerge := None;
      }
      bucket := bucket - {id};
      sorted := sorted - {id};
    }

    /** elv_drain_elevator */
    method Drain()
      requires Valid()
      modifies this`sorted, this`bucket, this`lastMerge
      ensures Valid() && sorted == {}
    {
      hide AllOk, Unique, Hashed, SameBios, Fresh, Joined, BackMerged, FrontMerged, CanJoin, EndSector, SectorsOf, At;
      while sorted != {}
        invariant Valid()
        decreases sorted
      {
        var id :| id in sorted;
        Dispatch(id);
      }
    }

    /** The end of __make_request: a request of its own for the bio. A barrier, or a request without
        private data, goes to the dispatch list behind all others and is not merged with; any other
        goes through the sorted insert of elv_insert. A read-ahead bio's request fails fast in every
        way. */
    method AddRequest(id: nat, bio: Bio, ahead: bool, back: bool)
      requires Valid() && Fresh(rqs, bio) && id !in rqs
      modifies this
      ensures Valid() && SameBios(old(rqs), rqs, {bio.id}) && At(rqs, id, 0, bio.id)
      ensures sorted == if back then {} else old(sorted) + {id}
      ensures rqs == old(rqs)[id := Alone(bio, ahead, back)] && rqs[id].bios == [bio] && rqs[id].nomerge == back
      ensures rqs[id].ff == if ahead then {Device, Transport, Driver} else bio.ff
    {
      hide AllOk, Unique, Hashed, SameBios, Fresh, Joined, BackMerged, FrontMerged, CanJoin, EndSector, SectorsOf, At;
      assert bio.ff <= {Device, Transport, Driver} by { AllFailFast(bio.ff); }
      var rq := Alone(bio, ahead, back);
      if back { Drain(); }
      NewStays(rqs, id, bio, rq, maxSectors);
      HashedNew(hash, rqs, sorted, bucket, id, rq);
      rqs := rqs[id := rq];
      if !back {
        sorted := sorted + {id};
        bucket := bucket[id := hash(EndSector(rq))];
        if lastMerge.None? {
          lastMerge := Some(id);
        }
      }
    }

    /** elv_merge */
    method FindMerge(bio: Bio, env: Choices) returns (m: Merge)
      requires Valid() && Sensible(rqs, sorted, bio, env)
      modifies this`bucket
      ensures Valid() && (env.nomerges ==> m == NoMerge)
      ensures m.Back? ==> m.rq in sorted && CanTake(rqs[m.rq], bio) && EndSector(rqs[m.rq]) == bio.sector
      ensures m.Front? ==> m.rq in sorted && CanTake(rqs[m.rq], bio) && BioEnd(bio) == rqs[m.rq].pos
      ensures m == NoMerge && !env.nomerges && !env.noxmerges && BackCandidate(rqs, sorted, bio) ==>
                exists id :: id in sorted && EndSector(rqs[id]) == bio.sector && (id !in env.allowed || rqs[id].write != bio.write)
    {
      hide AllOk, Unique, Hashed, EndSector, BioEnd;
      if env.nomerges { return NoMerge; }
      if lastMerge.Some? {
        var rq := rqs[lastMerge.value];
        if lastMerge.value in env.allowed && CanTake(rq, bio) {
          if EndSector(rq) == bio.sector { return Back(lastMerge.value); }
          if BioEnd(bio) == rq.pos { return Front(lastMerge.value); }
        }
      }
      if env.noxmerges { return NoMerge; }
      var found := FindEnding(bio.sector);
      if found.Some? && found.value in env.allowed && CanTake(rqs[found.value], bio) { return Back(found.value); }
      if env.front.Some? && env.front.value in env.allowed && CanTake(rqs[env.front.value], bio) { return Front(env.front.value); }
      return NoMerge;
    }

    /** The first lock-held part of __make_request: the bio is merged, or nothing is lost. */
    method MergeBio(bio: Bio, env: Choices) returns (merged: bool)
      requires Valid() && Fresh(rqs, bio) && Sensible(rqs, sorted, bio, env)
      modifies this
      ensures Valid() && SameBios(old(rqs), rqs, if merged then {bio.id} else {}) && rqs.Keys <= old(rqs).Keys
      ensures !merged ==> Fresh(rqs, bio)
      ensures merged ==> !env.nomerges
      ensures !merged && !env.nomerges && !env.noxmerges && env.fits && old(BackCandidate(rqs, sorted, bio)) ==>
                exists x | x in old(sorted) :: x in old(rqs) && Unfit(old(rqs)[x], x, bio, env, maxSectors)
    {
      hide AllOk, Unique, Hashed, SameBios, Fresh, EndSector, BioEnd, CanTake, SectorsOf;
      ghost var before, was := rqs, sorted;
      assert was <= before.Keys;
      var m := FindMerge(bio, env);
      if m.Back? {
        merged := BackMerge(m.rq, bio, if m.rq in env.latter then Some(env.latter[m.rq]) else None, env.fits, env.joins);
      } else if m.Front? {
        merged := FrontMerge(m.rq, bio, if m.rq in env.former then Some(env.former[m.rq]) else None, env.fits, env.joins);
      } else {
        merged := false;
        SameBiosRefl(rqs);
        if !env.nomerges && !env.noxmerges && BackCandidate(rqs, sorted, bio) {
          var x :| x in sorted && EndSector(rqs[x]) == bio.sector && (x !in env.allowed || rqs[x].write != bio.write);
          assert Unfit(before[x], x, bio, env, maxSectors);
        }
      }
      if !merged {
        SameBiosFresh(before, rqs, bio);
        if !m.NoMerge? && env.fits { assert Unfit(before[m.rq], m.rq, bio, env, maxSectors); }
      }
    }

    /** __make_request when no other process gets the lock while it waits for a request: wherever the
        bio goes, the queue then holds the bios it held and this one, each in exactly one place. */
    method MakeRequest(bio: Bio, barrier: bool, priv: bool, ahead: bool, env: Choices, id: nat)
      requires Valid() && Fresh(rqs, bio) && Sensible(rqs, sorted, bio, env) && id !in rqs
      modifies this
      ensures Valid() && SameBios(old(rqs), rqs, {bio.id})
      ensures barrier ==> rqs == old(rqs)[id := Alone(bio, ahead, true)] && sorted == {}
      ensures id in rqs && !barrier ==> rqs[id] == Alone(bio, ahead, !priv)
      ensures env.nomerges ==> id in rqs
    {
      hide AllOk, Unique, Hashed, SameBios, Fresh, EndSector, BioEnd, CanTake, SectorsOf, Alone;
      ghost var before := rqs;
      var merged := false;
      if !barrier { merged := MergeBio(bio, env); }
      if !merged {
        ghost var between := rqs;
        AddRequest(id, bio, ahead, barrier || !priv);
        SameBiosThen(before, between, rqs, {bio.id});
      }
    }

    /** blk_start_request: the driver gets the request at its place in the dispatch list, which the
        hash no longer holds. It is sound, and its failfast bits are its first bio's at most. */
    method Start(id: nat) returns (rq: Request)
      requires Valid() && id in rqs && id !in sorted
      modifies this
      ensures Valid() && old(id !in bucket) && rqs == old(rqs) - {id} && sorted == old(sorted)
      ensures forall b: nat :: old(Has(rqs, b)) <==> Has(rqs, b) || exists i: nat :: At(old(rqs), id, i, b)
      ensures fresh(rq) && rq.Valid() && rq.ended == []
      ensures var r := old(rqs)[id]; rq.View() == Rest(r.bios, r.dataLen, r.pos, r.ff, r.mixed) && r.bios != []
    {
      hide Unique, Hashed, RqOk, EndSector, SectorsOf, At;
      assert id !in bucket by { OnDispatchList(hash, rqs, sorted, bucket, id); }
      var r := rqs[id];
      RqIsServable(r) by { AllOkAt(rqs, maxSectors, id); }
      TakeKeepsBios(rqs, id, maxSectors);
      HashedLeft(hash, rqs, sorted, bucket, id);
      hide AllOk;
      rq := new Request(r.bios, r.pos, r.ff, r.mixed);
      rqs := rqs - {id};
    }

    /** Whatever was merged into a request, and however it then completes in part, the bytes that fail
        together are at least one while data is left: the BUG_ON of blk_rq_err_bytes never fires. */
    method Serve(id: nat, steps: seq<(int, nat)>) returns (rq: Request, bytes: nat)
      requires Valid() && id in rqs && id !in sorted
      modifies this
      ensures Valid() && fresh(rq) && rq.Valid()
      ensures rq.mixed && rq.bios != [] ==> rq.ff <= rq.bios[0].ff
      ensures rq.dataLen > 0 ==> 0 < bytes <= rq.dataLen
      ensures EndedIds(rq.ended) + Ids(rq.bios) == Ids(old(rqs)[id].bios)
      ensures AllSound(old(rqs)[id].bios) && (rq.bios, rq.ended) == Series(old(rqs)[id].bios, steps)
    {
      hide AllOk, Unique, Hashed, RqOk, EndSector, SectorsOf, At, Finish, Progress, AllBytes, Ids, EndedIds, Eager, Sound;
      rq := Start(id);
      ghost var bs := rq.bios;
      NoneEnded(bs);
      for i := 0 to |steps|
        invariant Valid() && fresh(rq) && rq.Valid()
        invariant EndedIds(rq.ended) + Ids(rq.bios) == Ids(bs)
        invariant (rq.bios, rq.ended) == Series(bs, steps[..i])
      {
        SeriesSnoc(bs, steps[..i], steps[i]);
        assert steps[..i + 1] == steps[..i] + [steps[i]];
        var pending := rq.UpdateRequest(steps[i].0, steps[i].1);
      }
      assert steps[..|steps|] == steps;
      ghost var together;
      bytes, together := rq.ErrBytes();
    }

    /** And failing it piece by piece ends, with every one of its bios ended once. */
    method FailAfter(id: nat, steps: seq<(int, nat)>, error: int) returns (rq: Request)
      requires Valid() && id in rqs && id !in sorted
      modifies this
      ensures Valid() && fresh(rq) && rq.bios == [] && EndedIds(rq.ended) == Ids(old(rqs)[id].bios)
    {
      hide AllOk, Unique, Hashed, RqOk, At, Ids, EndedIds, Sound;
      var bytes;
      rq, bytes := Serve(id, steps);
      rq.FailPiecewise(error);
    }
  }

  lemma OnDispatchList(hash: nat -> nat, rqs: Rqs, sorted: set<nat>, bucket: map<nat, nat>, id: nat)
    requires Hashed(hash, rqs, sorted, bucket, {}) && id !in sorted
    ensures id !in bucket
  {}

  lemma NoneEnded(bs: seq<Bio>)
    ensures EndedIds([]) + Ids(bs) == Ids(bs)
  {}
}
