/** Segment counting and scatterlist mapping of block/blk-merge.c. */
module Segments {
  import opened Lists

  /** One vector of a bio: a physically contiguous run of bytes. */
  datatype Vec = Vec(start: nat, len: nat)

  /** What the queue allows. `mergeable` and `boundary` are BIOVEC_PHYS_MERGEABLE and
      BIOVEC_SEG_BOUNDARY, `high` says that a page lies above the bounce limit. */
  datatype Limits = Limits(cluster: bool, maxSize: nat, mergeable: (Vec, Vec) -> bool,
                           boundary: (Vec, Vec) -> bool, high: Vec -> bool)

  /** A scatterlist entry. */
  datatype Entry = Entry(start: nat, len: nat)

  function Size(vs: seq<Vec>): nat { if vs == [] then 0 else Size(vs[..|vs| - 1]) + vs[|vs| - 1].len }

  function Flatten<T>(xs: seq<seq<T>>): seq<T> { if xs == [] then [] else xs[0] + Flatten(xs[1..]) }

  function Last<T>(xs: seq<T>): T
    requires xs != []
  {
    xs[|xs| - 1]
  }

  predicate Joins(l: Limits, size: nat, prev: Vec, v: Vec) {
    l.cluster && size + v.len <= l.maxSize && l.mergeable(prev, v) && l.boundary(prev, v)
  }

  // ----- the two ways to split a run of vectors

  /** blk_rq_map_sg goes on from an open segment. */
  function MapFrom(l: Limits, open: seq<Vec>, rest: seq<Vec>): seq<seq<Vec>>
    requires open != []
    decreases |rest|
  {
    if rest == [] then [open]
    else if Joins(l, Size(open), Last(open), rest[0]) then MapFrom(l, open + [rest[0]], rest[1..])
    else [open] + MapFrom(l, [rest[0]], rest[1..])
  }

  function MapSegs(l: Limits, vs: seq<Vec>): seq<seq<Vec>> { if vs == [] then [] else MapFrom(l, [vs[0]], vs[1..]) }

  /** __blk_recalc_rq_segments goes on from an open segment; it keeps high pages apart. */
  function CountFrom(l: Limits, open: seq<Vec>, rest: seq<Vec>): seq<seq<Vec>>
    requires open != []
    decreases |rest|
  {
    if rest == [] then [open]
    else if !l.high(rest[0]) && !l.high(open[0]) && Joins(l, Size(open), Last(open), rest[0])
    then CountFrom(l, open + [rest[0]], rest[1..])
    else [open] + CountFrom(l, [rest[0]], rest[1..])
  }

  function CountSegs(l: Limits, vs: seq<Vec>): seq<seq<Vec>> { if vs == [] then [] else CountFrom(l, [vs[0]], vs[1..]) }

  // ----- what a device accepts as one segment

  ghost predicate Acceptable(l: Limits, seg: seq<Vec>) {
    && seg != []
    && (|seg| > 1 ==> l.cluster && Size(seg) <= l.maxSize)
    && forall i | 0 < i < |seg| :: l.mergeable(seg[i - 1], seg[i]) && l.boundary(seg[i - 1], seg[i])
  }

  ghost predicate Partition(l: Limits, segs: seq<seq<Vec>>, vs: seq<Vec>) {
    Flatten(segs) == vs && forall i | 0 <= i < |segs| :: Acceptable(l, segs[i])
  }

  lemma SizeAppend(vs: seq<Vec>, v: Vec)
    ensures Size(vs + [v]) == Size(vs) + v.len
  {
    assert (vs + [v])[..|vs|] == vs;
  }

  lemma {:induction false} SizeAtLeastPrefix(vs: seq<Vec>, n: nat)
    requires n <= |vs|
    ensures Size(vs[..n]) <= Size(vs)
  {
    if n < |vs| {
      SizeAtLeastPrefix(vs[..|vs| - 1], n);
      assert vs[..|vs| - 1][..n] == vs[..n];
    } else {
      assert vs[..n] == vs;
    }
  }

  lemma FlattenFirst<T>(a: seq<seq<T>>)
    requires a != []
    ensures Flatten(a) == a[0] + Flatten(a[1..])
  {}

  lemma {:induction false} FlattenAppend<T>(a: seq<seq<T>>, b: seq<seq<T>>)
    ensures Flatten(a + b) == Flatten(a) + Flatten(b)
  {
    if a == [] {
      assert a + b == b;
    } else {
      FlattenFirst(a);
      FlattenFirst(a + b);
      hide Flatten;
      FlattenAppend(a[1..], b);
      assert (a + b)[0] == a[0] && (a + b)[1..] == a[1..] + b;
      Associate(a[0], Flatten(a[1..]), Flatten(b));
    }
  }

  lemma GrowAcceptable(l: Limits, open: seq<Vec>, v: Vec)
    requires Acceptable(l, open) && Joins(l, Size(open), Last(open), v)
    ensures Acceptable(l, open + [v])
  {
    SizeAppend(open, v);
    var s := open + [v];
    forall i | 0 < i < |s|
      ensures l.mergeable(s[i - 1], s[i]) && l.boundary(s[i - 1], s[i])
    {
      assert s[i - 1] == open[i - 1];
    }
  }

  /** What the mapping emits is acceptable and covers the vectors in order. */
  lemma {:induction false} MapFromPartition(l: Limits, open: seq<Vec>, rest: seq<Vec>)
    requires Acceptable(l, open)
    ensures Partition(l, MapFrom(l, open, rest), open + rest)
    decreases |rest|
  {
    if rest == [] {
      assert Flatten([open]) == open + [];
    } else if Joins(l, Size(open), Last(open), rest[0]) {
      GrowAcceptable(l, open, rest[0]);
      MapFromPartition(l, open + [rest[0]], rest[1..]);
      assert open + rest == open + [rest[0]] + rest[1..];
    } else {
      MapFromPartition(l, [rest[0]], rest[1..]);
      assert [rest[0]] + rest[1..] == rest;
    }
  }

  lemma {:induction false} CountFromPartition(l: Limits, open: seq<Vec>, rest: seq<Vec>)
    requires Acceptable(l, open)
    ensures Partition(l, CountFrom(l, open, rest), open + rest)
    decreases |rest|
  {
    if rest == [] {
      assert Flatten([open]) == open + [];
    } else if !l.high(rest[0]) && !l.high(open[0]) && Joins(l, Size(open), Last(open), rest[0]) {
      GrowAcceptable(l, open, rest[0]);
      CountFromPartition(l, open + [rest[0]], rest[1..]);
      assert open + rest == open + [rest[0]] + rest[1..];
    } else {
      CountFromPartition(l, [rest[0]], rest[1..]);
      assert [rest[0]] + rest[1..] == rest;
    }
  }

  // ----- the mapping is minimal

  /** A smaller open segment never needs more segments, and any open segment at most one more. */
  lemma {:induction false} OpenMatters(l: Limits, o: seq<Vec>, o': seq<Vec>, rest: seq<Vec>)
    requires o != [] && o' != [] && Last(o) == Last(o')
    ensures |MapFrom(l, o, rest)| <= 1 + |MapFrom(l, o', rest)|
    ensures Size(o) <= Size(o') ==> |MapFrom(l, o, rest)| <= |MapFrom(l, o', rest)|
    decreases |rest|
  {
    if rest != [] {
      var v, tail := rest[0], rest[1..];
      SizeAppend(o, v);
      SizeAppend(o', v);
      SizeAppend([], v);
      assert [] + [v] == [v];
      OpenMatters(l, o + [v], o' + [v], tail);
      OpenMatters(l, o + [v], [v], tail);
      OpenMatters(l, [v], o' + [v], tail);
    }
  }

  /** Walking an acceptable segment, the mapping does not cut it. */
  lemma {:induction false} NoCutInside(l: Limits, seg: seq<Vec>, n: nat, rest: seq<Vec>)
    requires Acceptable(l, seg) && 0 < n <= |seg|
    ensures MapFrom(l, seg[..n], seg[n..] + rest) == MapFrom(l, seg, rest)
    decreases |seg| - n
  {
    if n == |seg| {
      assert seg[..n] == seg && seg[n..] + rest == rest;
    } else {
      var more := seg[n..] + rest;
      assert more[0] == seg[n] && more[1..] == seg[n + 1..] + rest;
      assert seg[..n] + [seg[n]] == seg[..n + 1];
      SizeAppend(seg[..n], seg[n]);
      SizeAtLeastPrefix(seg, n + 1);
      assert Last(seg[..n]) == seg[n - 1];
      NoCutInside(l, seg, n + 1, rest);
    }
  }

  /** No acceptable partition has fewer segments than the mapping. */
  lemma {:induction false} MapIsMinimal(l: Limits, segs: seq<seq<Vec>>, vs: seq<Vec>)
    requires Partition(l, segs, vs)
    ensures |MapSegs(l, vs)| <= |segs|
    decreases |segs|
  {
    if segs != [] {
      var seg, others := segs[0], segs[1..];
      var rest := Flatten(others);
      assert forall i | 0 <= i < |others| :: others[i] == segs[i + 1];
      MapIsMinimal(l, others, rest);
      assert vs[0] == seg[0] && vs[1..] == seg[1..] + rest && [vs[0]] == seg[..1];
      NoCutInside(l, seg, 1, rest);
      if rest == [] {
      } else {
        SizeAppend(seg, rest[0]);
        OpenMatters(l, seg + [rest[0]], [rest[0]], rest[1..]);
      }
    }
  }

  // ----- the count is minimal among those that keep high pages apart

  /** The limits with every high page on its own. */
  function Apart(l: Limits): Limits {
    l.(mergeable := (v, w) => l.mergeable(v, w) && !l.high(v) && !l.high(w))
  }

  /** The count is the mapping under those limits. */
  lemma {:induction false} CountIsMap(l: Limits, open: seq<Vec>, rest: seq<Vec>)
    requires open != [] && (|open| > 1 ==> forall i | 0 <= i < |open| :: !l.high(open[i]))
    ensures CountFrom(l, open, rest) == MapFrom(Apart(l), open, rest)
    decreases |rest|
  {
    if rest != [] {
      var v := rest[0];
      hide Size;
      assert l.high(open[0]) == l.high(Last(open));
      assert Joins(Apart(l), Size(open), Last(open), v) <==> !l.high(v) && !l.high(open[0]) && Joins(l, Size(open), Last(open), v);
      if Joins(Apart(l), Size(open), Last(open), v) {
        CountIsMap(l, open + [v], rest[1..]);
      } else {
        CountIsMap(l, [v], rest[1..]);
      }
    }
  }

  /** What a segment has to be like to be counted as one. */
  lemma ApartIs(l: Limits, seg: seq<Vec>)
    ensures Acceptable(Apart(l), seg) <==>
              Acceptable(l, seg) && (|seg| > 1 ==> forall i | 0 <= i < |seg| :: !l.high(seg[i]))
  {
    if Acceptable(Apart(l), seg) && |seg| > 1 {
      forall i | 0 <= i < |seg|
        ensures !l.high(seg[i])
      {
        if i > 0 { assert Apart(l).mergeable(seg[i - 1], seg[i]); } else { assert Apart(l).mergeable(seg[0], seg[1]); }
      }
      forall i | 0 < i < |seg|
        ensures l.mergeable(seg[i - 1], seg[i])
      {
        assert Apart(l).mergeable(seg[i - 1], seg[i]);
      }
    }
  }

  /** The counted segments respect the limits and keep high pages apart, and no such partition has fewer. */
  lemma CountIsMinimal(l: Limits, segs: seq<seq<Vec>>, vs: seq<Vec>)
    ensures Partition(Apart(l), CountSegs(l, vs), vs)
    ensures Partition(Apart(l), segs, vs) ==> |CountSegs(l, vs)| <= |segs|
  {
    if vs != [] {
      CountIsMap(l, [vs[0]], vs[1..]);
      MapFromPartition(Apart(l), [vs[0]], vs[1..]);
      assert [vs[0]] + vs[1..] == vs;
    }
    hide Partition;
    if Partition(Apart(l), segs, vs) { MapIsMinimal(Apart(l), segs, vs); }
  }

  // ----- what the block layer promises the driver

  /** The per-bio counts that ll_new_hw_segment adds up. */
  function SumOfCounts(l: Limits, bios: seq<seq<Vec>>): nat {
    if bios == [] then 0 else |CountSegs(l, bios[0])| + SumOfCounts(l, bios[1..])
  }

  function PerBio(l: Limits, bios: seq<seq<Vec>>): seq<seq<Vec>> {
    if bios == [] then [] else CountSegs(l, bios[0]) + PerBio(l, bios[1..])
  }

  lemma CountPartition(l: Limits, vs: seq<Vec>)
    ensures Partition(l, CountSegs(l, vs), vs)
  {
    if vs != [] {
      CountFromPartition(l, [vs[0]], vs[1..]);
      assert [vs[0]] + vs[1..] == vs;
    }
  }

  lemma {:induction false} PerBioPartition(l: Limits, bios: seq<seq<Vec>>)
    ensures Partition(l, PerBio(l, bios), Flatten(bios)) && |PerBio(l, bios)| == SumOfCounts(l, bios)
  {
    if bios != [] {
      FlattenFirst(bios);
      hide Flatten, CountSegs, Acceptable;
      var a, b := CountSegs(l, bios[0]), PerBio(l, bios[1..]);
      CountPartition(l, bios[0]);
      PerBioPartition(l, bios[1..]);
      FlattenAppend(a, b);
      assert forall i | 0 <= i < |a + b| :: (a + b)[i] == if i < |a| then a[i] else b[i - |a|];
    }
  }

  /** The scatterlist never has more entries than the recounted segments of the request, nor
      than the counts of its bios added up. */
  lemma MapFitsCounts(l: Limits, bios: seq<seq<Vec>>)
    ensures |MapSegs(l, Flatten(bios))| <= |CountSegs(l, Flatten(bios))|
    ensures |MapSegs(l, Flatten(bios))| <= SumOfCounts(l, bios)
  {
    CountPartition(l, Flatten(bios));
    MapIsMinimal(l, CountSegs(l, Flatten(bios)), Flatten(bios));
    PerBioPartition(l, bios);
    MapIsMinimal(l, PerBio(l, bios), Flatten(bios));
  }

  // ----- bytes

  function Bytes(start: nat, len: nat): seq<nat> { seq(len, i => start + i) }

  function VecBytes(vs: seq<Vec>): seq<nat> { if vs == [] then [] else Bytes(vs[0].start, vs[0].len) + VecBytes(vs[1..]) }

  function EntryOf(seg: seq<Vec>): Entry
    requires seg != []
  {
    Entry(seg[0].start, Size(seg))
  }

  function EntryBytes(sg: seq<Entry>): seq<nat> { if sg == [] then [] else Bytes(sg[0].start, sg[0].len) + EntryBytes(sg[1..]) }

  predicate AllNonEmpty(segs: seq<seq<Vec>>) { forall i | 0 <= i < |segs| :: segs[i] != [] }

  function Entries(segs: seq<seq<Vec>>): seq<Entry>
    requires AllNonEmpty(segs)
  {
    seq(|segs|, i requires 0 <= i < |segs| => EntryOf(segs[i]))
  }

  lemma VecBytesFirst(a: seq<Vec>)
    requires a != []
    ensures VecBytes(a) == VecBytes([a[0]]) + VecBytes(a[1..])
  {
    assert [a[0]][1..] == [];
  }

  lemma {:induction false} VecBytesAppend(a: seq<Vec>, b: seq<Vec>)
    ensures VecBytes(a + b) == VecBytes(a) + VecBytes(b)
  {
    hide Bytes;
    if a == [] {
      assert a + b == b;
    } else {
      VecBytesFirst(a);
      VecBytesFirst(a + b);
      hide VecBytes;
      VecBytesAppend(a[1..], b);
      assert (a + b)[0] == a[0] && (a + b)[1..] == a[1..] + b;
    }
  }

  lemma BytesConcat(start: nat, n: nat, m: nat)
    ensures Bytes(start, n) + Bytes(start + n, m) == Bytes(start, n + m)
  {
  }

  /** Merging needs physical contiguity, so an entry covers exactly the bytes of its vectors. */
  lemma {:induction false} SegmentBytes(l: Limits, seg: seq<Vec>)
    requires forall v, w | l.mergeable(v, w) :: v.start + v.len == w.start
    requires Acceptable(l, seg)
    ensures Bytes(seg[0].start, Size(seg)) == VecBytes(seg)
    ensures seg[0].start + Size(seg) == Last(seg).start + Last(seg).len
  {
    if |seg| == 1 {
      assert seg[1..] == [] && seg[..0] == [];
    } else {
      AcceptableInit(l, seg);
      var init := seg[..|seg| - 1];
      hide Acceptable, VecBytes, Bytes, Size;
      SegmentBytes(l, init);
      assert init[0] == seg[0] && Last(init) == seg[|seg| - 2];
      SegmentStep(seg);
    }
  }

  lemma SegmentStep(seg: seq<Vec>)
    requires |seg| > 1
    requires var init, v := seg[..|seg| - 1], seg[|seg| - 1];
             Bytes(seg[0].start, Size(init)) == VecBytes(init) && seg[0].start + Size(init) == v.start
    ensures Bytes(seg[0].start, Size(seg)) == VecBytes(seg)
    ensures seg[0].start + Size(seg) == Last(seg).start + Last(seg).len
  {
    hide Bytes;
    var init, v := seg[..|seg| - 1], seg[|seg| - 1];
    assert seg == init + [v] && [v][1..] == [];
    VecBytesAppend(init, [v]);
    BytesConcat(seg[0].start, Size(init), v.len);
  }

  lemma AcceptableInit(l: Limits, seg: seq<Vec>)
    requires Acceptable(l, seg) && |seg| > 1
    ensures Acceptable(l, seg[..|seg| - 1]) && l.mergeable(seg[|seg| - 2], seg[|seg| - 1])
  {
    SizeAtLeastPrefix(seg, |seg| - 1);
  }

  lemma {:induction false} EntriesCover(l: Limits, segs: seq<seq<Vec>>)
    requires forall v, w | l.mergeable(v, w) :: v.start + v.len == w.start
    requires forall i | 0 <= i < |segs| :: segs[i] != [] && Acceptable(l, segs[i])
    ensures EntryBytes(Entries(segs)) == VecBytes(Flatten(segs))
  {
    if segs != [] {
      var others := segs[1..];
      assert forall i | 0 <= i < |others| :: others[i] == segs[i + 1] && others[i] != [];
      EntriesCover(l, others);
      SegmentBytes(l, segs[0]);
      VecBytesAppend(segs[0], Flatten(others));
      assert Entries(segs)[1..] == Entries(others);
    }
  }

  // ----- the source's loops

  /** The vectors not looked at yet: bio b from its vector i on, and the bios behind it. */
  function Ahead(bios: seq<seq<Vec>>, b: nat, i: nat): seq<Vec>
    requires b < |bios| && i <= |bios[b]|
  {
    bios[b][i..] + Flatten(bios[b + 1..])
  }

  lemma AheadStep(bios: seq<seq<Vec>>, b: nat, i: nat)
    requires b < |bios| && i < |bios[b]|
    ensures Ahead(bios, b, i) != [] && Ahead(bios, b, i)[0] == bios[b][i]
    ensures Ahead(bios, b, i)[1..] == Ahead(bios, b, i + 1)
  {
  }

  lemma AheadNext(bios: seq<seq<Vec>>, b: nat)
    requires b < |bios|
    ensures Ahead(bios, b, |bios[b]|) == Flatten(bios[b + 1..])
    ensures Ahead(bios, b, 0) == Flatten(bios[b..])
  {
    assert bios[b..][1..] == bios[b + 1..];
  }

  /** How many segments the count still adds, the open one included. */
  function ToCount(l: Limits, open: seq<Vec>, rest: seq<Vec>): int {
    if open == [] then |CountSegs(l, rest)| else |CountFrom(l, open, rest)| - 1
  }

  /** __blk_recalc_rq_segments: the least number of segments that respect the limits and keep high
      pages apart, and at least as many as the mapping needs. */
  method RecalcSegments(l: Limits, bios: seq<seq<Vec>>) returns (nrPhysSegs: nat)
    ensures nrPhysSegs == |CountSegs(l, Flatten(bios))|
    ensures forall segs | Partition(Apart(l), segs, Flatten(bios)) :: nrPhysSegs <= |segs|
    ensures |MapSegs(l, Flatten(bios))| <= nrPhysSegs
  {
    nrPhysSegs := 0;
    var segSize, prev, highPrev := 0, Vec(0, 0), true;
    ghost var open: seq<Vec> := [];
    ghost var all := |CountSegs(l, Flatten(bios))|;
    assert bios[0..] == bios;
    for b := 0 to |bios|
      invariant open == [] ==> nrPhysSegs == 0 && highPrev
      invariant open != [] ==> segSize == Size(open) && prev == Last(open) && highPrev == l.high(open[0])
      invariant nrPhysSegs + ToCount(l, open, Flatten(bios[b..])) == all
    {
      AheadNext(bios, b);
      for i := 0 to |bios[b]|
        invariant open == [] ==> nrPhysSegs == 0 && highPrev
        invariant open != [] ==> segSize == Size(open) && prev == Last(open) && highPrev == l.high(open[0])
        invariant nrPhysSegs + ToCount(l, open, Ahead(bios, b, i)) == all
      {
        AheadStep(bios, b, i);
        var v := bios[b][i];
        var high := l.high(v);
        SizeAppend(open, v);
        SizeAppend([], v);
        assert [] + [v] == [v];
        if !high && !highPrev && Joins(l, segSize, prev, v) {
          segSize := segSize + v.len;
          prev := v;
          open := open + [v];
        } else {
          nrPhysSegs := nrPhysSegs + 1;
          prev := v;
          segSize := v.len;
          highPrev := high;
          open := [v];
        }
      }
    }
    MapFitsCounts(l, bios);
    forall segs | Partition(Apart(l), segs, Flatten(bios))
      ensures nrPhysSegs <= |segs|
    {
      CountIsMinimal(l, segs, Flatten(bios));
    }
  }

  lemma {:induction false} MapFromNonEmpty(l: Limits, open: seq<Vec>, rest: seq<Vec>)
    requires open != []
    ensures forall i | 0 <= i < |MapFrom(l, open, rest)| :: MapFrom(l, open, rest)[i] != []
    decreases |rest|
  {
    if rest != [] {
      if Joins(l, Size(open), Last(open), rest[0]) {
        MapFromNonEmpty(l, open + [rest[0]], rest[1..]);
      } else {
        MapFromNonEmpty(l, [rest[0]], rest[1..]);
      }
    }
  }

  /** The entries the mapping still emits, the open one included. */
  function ToMap(l: Limits, open: seq<Vec>, rest: seq<Vec>): seq<Entry> {
    if open != [] then
      MapFromNonEmpty(l, open, rest);
      Entries(MapFrom(l, open, rest))
    else if rest != [] then
      MapFromNonEmpty(l, [rest[0]], rest[1..]);
      Entries(MapFrom(l, [rest[0]], rest[1..]))
    else []
  }

  lemma EntriesCons(seg: seq<Vec>, segs: seq<seq<Vec>>)
    requires seg != [] && forall i | 0 <= i < |segs| :: segs[i] != []
    ensures Entries([seg] + segs) == [EntryOf(seg)] + Entries(segs)
  {
    hide EntryOf;
  }

  lemma ToMapStep(l: Limits, open: seq<Vec>, rest: seq<Vec>)
    requires rest != []
    ensures var v := rest[0];
            ToMap(l, open, rest) ==
              if open == [] then ToMap(l, [v], rest[1..])
              else if Joins(l, Size(open), Last(open), v) then ToMap(l, open + [v], rest[1..])
              else [EntryOf(open)] + ToMap(l, [v], rest[1..])
  {
    hide Entries, EntryOf, Joins, Size, Last;
    if open != [] && !Joins(l, Size(open), Last(open), rest[0]) {
      MapFromNonEmpty(l, [rest[0]], rest[1..]);
      EntriesCons(open, MapFrom(l, [rest[0]], rest[1..]));
    }
  }

  /** The scatterlist so far: the entries that are complete and the one of the open segment. */
  ghost predicate Shape(sglist: seq<Entry>, prev: Vec, open: seq<Vec>, complete: seq<Entry>) {
    if open == [] then sglist == [] && complete == []
    else sglist == complete + [EntryOf(open)] && prev == Last(open)
  }

  /** One vector: extend the last entry in place, or start the next one. */
  method AddVec(l: Limits, sglist: seq<Entry>, prev: Vec, v: Vec, ghost open: seq<Vec>, ghost complete: seq<Entry>,
                ghost rest: seq<Vec>)
    returns (sg: seq<Entry>, ghost open': seq<Vec>, ghost complete': seq<Entry>)
    requires Shape(sglist, prev, open, complete) && rest != [] && rest[0] == v
    ensures open' != [] && Shape(sg, v, open', complete')
    ensures complete' + ToMap(l, open', rest[1..]) == complete + ToMap(l, open, rest)
  {
    ToMapStep(l, open, rest);
    SizeAppend(open, v);
    SizeAppend([], v);
    assert [] + [v] == [v];
    hide Size, ToMap, Joins, Last;
    if sglist != [] && Joins(l, sglist[|sglist| - 1].len, prev, v) {
      var last := sglist[|sglist| - 1];
      assert last == EntryOf(open) && EntryOf(open + [v]) == last.(len := last.len + v.len);
      sg := sglist[|sglist| - 1 := last.(len := last.len + v.len)];
      open', complete' := open + [v], complete;
      assert sg == complete + [EntryOf(open')];
    } else {
      assert EntryOf([v]) == Entry(v.start, v.len);
      sg := sglist + [Entry(v.start, v.len)];
      open', complete' := [v], if open == [] then [] else complete + [EntryOf(open)];
      if open != [] { Associate(complete, [EntryOf(open)], ToMap(l, [v], rest[1..])); }
    }
  }

  /** blk_rq_map_sg, padding and drain entry aside: the entries are segments the device accepts, as few
      as there can be and at most as many as the counts, and together exactly the bytes of the
      request in order. */
  method MapSg(l: Limits, bios: seq<seq<Vec>>) returns (sglist: seq<Entry>, ghost segs: seq<seq<Vec>>)
    requires forall v, w | l.mergeable(v, w) :: v.start + v.len == w.start
    ensures Partition(l, segs, Flatten(bios)) && AllNonEmpty(segs) && sglist == Entries(segs)
    ensures forall other | Partition(l, other, Flatten(bios)) :: |sglist| <= |other|
    ensures |sglist| <= |CountSegs(l, Flatten(bios))| && |sglist| <= SumOfCounts(l, bios)
    ensures EntryBytes(sglist) == VecBytes(Flatten(bios))
  {
    MapDone(l, bios);
    FlattenNone<Vec>();
    hide Joins, Size, Flatten, Ahead, CountSegs, SumOfCounts, EntryBytes, VecBytes, MapFrom, Entries;
    sglist := [];
    var prev := Vec(0, 0);
    ghost var open: seq<Vec>, complete: seq<Entry> := [], [];
    ghost var all := ToMap(l, [], Flatten(bios));
    assert bios[0..] == bios && [] + all == all;
    for b := 0 to |bios|
      invariant Shape(sglist, prev, open, complete)
      invariant complete + ToMap(l, open, Flatten(bios[b..])) == all
    {
      AheadNext(bios, b);
      for i := 0 to |bios[b]|
        invariant Shape(sglist, prev, open, complete)
        invariant complete + ToMap(l, open, Ahead(bios, b, i)) == all
      {
        AheadStep(bios, b, i);
        sglist, open, complete := AddVec(l, sglist, prev, bios[b][i], open, complete, Ahead(bios, b, i));
        prev := bios[b][i];
      }
    }
    assert bios[|bios|..] == [];
    if open != [] { ToMapEnd(l, open); }
    segs := MapSegs(l, Flatten(bios));
  }

  lemma FlattenNone<T>()
    ensures Flatten<T>([]) == []
  {}

  lemma ToMapEnd(l: Limits, open: seq<Vec>)
    requires open != []
    ensures ToMap(l, open, []) == [EntryOf(open)]
  {}

  lemma MapDone(l: Limits, bios: seq<seq<Vec>>)
    requires forall v, w | l.mergeable(v, w) :: v.start + v.len == w.start
    ensures var all := ToMap(l, [], Flatten(bios));
            && |all| == |MapSegs(l, Flatten(bios))|
            && |all| <= |CountSegs(l, Flatten(bios))| && |all| <= SumOfCounts(l, bios)
            && EntryBytes(all) == VecBytes(Flatten(bios))
            && Partition(l, MapSegs(l, Flatten(bios)), Flatten(bios)) && AllNonEmpty(MapSegs(l, Flatten(bios)))
            && all == Entries(MapSegs(l, Flatten(bios)))
    ensures forall other | Partition(l, other, Flatten(bios)) :: |MapSegs(l, Flatten(bios))| <= |other|
  {
    var vs := Flatten(bios);
    forall other | Partition(l, other, vs)
      ensures |MapSegs(l, vs)| <= |other|
    {
      MapIsMinimal(l, other, vs);
    }
    MapFitsCounts(l, bios);
    if vs != [] {
      MapFromPartition(l, [vs[0]], vs[1..]);
      assert [vs[0]] + vs[1..] == vs;
      EntriesCover(l, MapSegs(l, vs));
    }
  }
}
