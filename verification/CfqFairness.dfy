/** Weighted fairness of CFQ's groups, block/cfq-iosched.c: the group with the least vdisktime is
    served, and its vdisktime grows by the slice scaled with its weight. */
module CfqFairness {
  import opened Arithmetic

  /** 1 << CFQ_SERVICE_SHIFT, times BLKIO_WEIGHT_DEFAULT. */
  const UNIT: nat := 4096 * 500

  type Times = map<nat, nat>
  type Weights = map<nat, nat>

  datatype Charge = Charge(group: nat, slice: nat)

  /** cfq_scale_slice */
  function Scaled(slice: nat, weight: nat): nat
    requires weight > 0
  {
    Div(slice * UNIT, weight)
  }

  /** A group of the default weight is charged its slice, in units of 1 << 12. */
  lemma DefaultWeight(slice: nat)
    ensures Scaled(slice, 500) == slice * 4096
  {
    DivMod(slice * UNIT, 500);
  }

  /** What the division of cfq_scale_slice drops. */
  function Dropped(slice: nat, weight: nat): nat
    requires weight > 0
  {
    Mod(slice * UNIT, weight)
  }

  predicate Weighted(w: Weights, v: Times) { w.Keys == v.Keys && forall g | g in w :: w[g] > 0 }

  /** What cfq_get_next_cfqg promises of the group it picks. */
  predicate IsLeast(v: Times, g: nat) { g in v && forall h | h in v :: v[g] <= v[h] }

  /** cfq_group_served */
  function Served(w: Weights, v: Times, c: Charge): Times
    requires Weighted(w, v) && c.group in v
  {
    v[c.group := v[c.group] + Scaled(c.slice, w[c.group])]
  }

  /** A run in which every slice goes to a group that is picked. */
  ghost predicate IsRun(w: Weights, v: Times, run: seq<Charge>, end: Times)
    requires Weighted(w, v)
    decreases |run|
  {
    if run == [] then end == v else IsLeast(v, run[0].group) && IsRun(w, Served(w, v, run[0]), run[1..], end)
  }

  // ----- the spread of vdisktime

  ghost predicate Within(v: Times, d: nat) { forall g, h | g in v && h in v :: v[g] <= v[h] + d }

  ghost predicate ChargesWithin(w: Weights, run: seq<Charge>, d: nat) {
    forall i | 0 <= i < |run| :: run[i].group in w && w[run[i].group] > 0 && Scaled(run[i].slice, w[run[i].group]) <= d
  }

  lemma ServedWithin(w: Weights, v: Times, c: Charge, d: nat)
    requires Weighted(w, v) && IsLeast(v, c.group) && Within(v, d) && Scaled(c.slice, w[c.group]) <= d
    ensures Within(Served(w, v, c), d)
  {
    hide Scaled;
  }

  /** The spread never exceeds the larger of what it was and the largest scaled charge. */
  lemma {:induction false} SpreadStays(w: Weights, v: Times, run: seq<Charge>, end: Times, d: nat)
    requires Weighted(w, v) && IsRun(w, v, run, end) && Within(v, d) && ChargesWithin(w, run, d)
    ensures Weighted(w, end) && Within(end, d)
    decreases |run|
  {
    hide Scaled;
    if run != [] {
      assert Scaled(run[0].slice, w[run[0].group]) <= d;
      ServedWithin(w, v, run[0], d);
      SpreadStays(w, Served(w, v, run[0]), run[1..], end, d);
    }
  }

  // ----- service

  function Service(run: seq<Charge>, g: nat): nat {
    if run == [] then 0 else (if run[0].group == g then run[0].slice else 0) + Service(run[1..], g)
  }

  function Slices(run: seq<Charge>, g: nat): nat {
    if run == [] then 0 else (if run[0].group == g then 1 else 0) + Slices(run[1..], g)
  }

  /** All that the divisions dropped of a group's charges. */
  function Lost(run: seq<Charge>, g: nat, weight: nat): nat
    requires weight > 0
  {
    if run == [] then 0 else (if run[0].group == g then Dropped(run[0].slice, weight) else 0) + Lost(run[1..], g, weight)
  }

  lemma ScaledIs(slice: nat, weight: nat)
    requires weight > 0
    ensures weight * Scaled(slice, weight) + Dropped(slice, weight) == slice * UNIT
    ensures Dropped(slice, weight) < weight
  {
    assert slice * UNIT == weight * Div(slice * UNIT, weight) + Mod(slice * UNIT, weight) by { DivMod(slice * UNIT, weight); }
  }

  /** What a group was served is its gain in vdisktime times its weight, and what was dropped. */
  lemma {:induction false} ServiceIs(w: Weights, v: Times, run: seq<Charge>, end: Times, g: nat)
    requires Weighted(w, v) && IsRun(w, v, run, end) && g in v
    ensures g in end && v[g] <= end[g] && Units(run, g) == Mul(w[g], end[g] - v[g]) + Lost(run, g, w[g])
    decreases |run|
  {
    hide Scaled, Dropped, Weighted;
    if run != [] {
      var c := run[0];
      var v' := Served(w, v, c);
      assert Weighted(w, v') && w[g] > 0 && w[c.group] > 0 by { ServedWeighted(w, v, c); }
      ServiceIs(w, v', run[1..], end, g);
      if c.group == g {
        ScaledIs(c.slice, w[g]);
        Distribute(w[g], end[g] - v'[g], Scaled(c.slice, w[g]));
        DistributeUnit(c.slice, Service(run[1..], g));
      }
    }
  }

  lemma ServedWeighted(w: Weights, v: Times, c: Charge)
    requires Weighted(w, v) && c.group in v
    ensures Weighted(w, Served(w, v, c)) && forall g | g in v :: g in w && w[g] > 0
  {
    hide Scaled;
  }

  lemma DistributeUnit(a: nat, b: nat)
    ensures (a + b) * UNIT == a * UNIT + b * UNIT
  {}

  lemma {:induction false} LostBound(run: seq<Charge>, g: nat, weight: nat)
    requires weight > 0
    ensures Lost(run, g, weight) <= weight * Slices(run, g)
  {
    hide Dropped;
    if run != [] {
      LostBound(run[1..], g, weight);
      if run[0].group == g {
        ScaledIs(run[0].slice, weight);
        Distribute(weight, 1, Slices(run[1..], g));
      }
    }
  }

  // ----- fairness

  /** A group's service in the units of vdisktime times weight. */
  function Units(run: seq<Charge>, g: nat): nat { Service(run, g) * UNIT }

  lemma Cross(a: nat, b: nat, p: nat, q: nat, x: nat, y: nat, l: nat, m: nat, d: nat)
    requires p == Mul(a, x) + l && q == Mul(b, y) + m && x <= y + d
    ensures b * p <= a * q + a * b * d + b * l
  {
    var z := y + d - x;
    assert b * (a * x + l) == a * b * x + b * l;
    assert a * (b * y + m) == a * b * y + a * m;
    assert a * b * (x + z) == a * b * x + a * b * z;
    assert a * b * (y + d) == a * b * y + a * b * d;
  }

  /** Service over weight: group g is ahead of group h by at most twice the spread, and by what the
      divisions dropped of its own charges. */
  lemma Fair(w: Weights, v: Times, run: seq<Charge>, end: Times, d: nat, g: nat, h: nat)
    requires Weighted(w, v) && IsRun(w, v, run, end) && Within(v, d) && ChargesWithin(w, run, d) && g in v && h in v
    ensures w[h] * Units(run, g) <=
            w[g] * Units(run, h) + w[g] * w[h] * (2 * d) + w[h] * Lost(run, g, w[g])
  {
    hide IsRun, ChargesWithin, Lost, Units, Service, Mul;
    SpreadStays(w, v, run, end, d);
    ServiceIs(w, v, run, end, g);
    ServiceIs(w, v, run, end, h);
    assert end[g] <= end[h] + d && v[h] <= v[g] + d;
    Cross(w[g], w[h], Units(run, g), Units(run, h), end[g] - v[g], end[h] - v[h], Lost(run, g, w[g]), Lost(run, h, w[h]), 2 * d);
  }

  /** A weight's charges are never rounded iff it divides UNIT. */
  lemma ExactIff(weight: nat)
    requires weight > 0
    ensures (forall slice: nat :: Dropped(slice, weight) == 0) <==> Mod(UNIT, weight) == 0
  {
    if Mod(UNIT, weight) == 0 {
      forall slice: nat
        ensures Dropped(slice, weight) == 0
      {
        ExactSlices(slice, weight);
      }
    } else {
      assert 1 * UNIT == UNIT;
      assert Dropped(1, weight) != 0;
    }
  }

  lemma {:induction false} ExactSlices(slice: nat, weight: nat)
    requires weight > 0
    requires Mod(UNIT, weight) == 0
    ensures Dropped(slice, weight) == 0
  {
    hide Mod, Div;
    if slice == 0 {
      ModIs(0, weight, 0, 0);
    } else {
      ExactSlices(slice - 1, weight);
      DivMod((slice - 1) * UNIT, weight);
      DivMod(UNIT, weight);
      var q := Div((slice - 1) * UNIT, weight) + Div(UNIT, weight);
      Distribute(weight, Div((slice - 1) * UNIT, weight), Div(UNIT, weight));
      DistributeUnit(slice - 1, 1);
      ModIs(slice * UNIT, weight, q, 0);
    }
  }

  lemma {:induction false} ExactLosesNothing(run: seq<Charge>, g: nat, weight: nat)
    requires weight > 0
    requires Mod(UNIT, weight) == 0
    ensures Lost(run, g, weight) == 0
  {
    hide Dropped;
    if run != [] {
      ExactLosesNothing(run[1..], g, weight);
      ExactSlices(run[0].slice, weight);
    }
  }

  /** For a weight that divides UNIT the bound is a constant: no run, however long, puts the group
      further ahead of another than twice the spread. */
  lemma FairWithinAConstant(w: Weights, v: Times, run: seq<Charge>, end: Times, d: nat, g: nat, h: nat)
    requires Weighted(w, v) && IsRun(w, v, run, end) && Within(v, d) && ChargesWithin(w, run, d) && g in v && h in v
    requires Mod(UNIT, w[g]) == 0
    ensures w[h] * Units(run, g) <= w[g] * Units(run, h) + w[g] * w[h] * (2 * d)
  {
    Fair(w, v, run, end, d, g, h);
    ExactLosesNothing(run, g, w[g]);
  }

  /** For any weight it grows by less than one unit of vdisktime a slice. */
  lemma FairUpToRounding(w: Weights, v: Times, run: seq<Charge>, end: Times, d: nat, g: nat, h: nat)
    requires Weighted(w, v) && IsRun(w, v, run, end) && Within(v, d) && ChargesWithin(w, run, d) && g in v && h in v
    ensures w[h] * Units(run, g) <= w[g] * Units(run, h) + w[g] * w[h] * (2 * d + Slices(run, g))
  {
    Fair(w, v, run, end, d, g, h);
    LostBound(run, g, w[g]);
    hide IsRun, Lost, Slices, Units;
    AddRounding(w[g], w[h], Units(run, g), Units(run, h), Lost(run, g, w[g]), Slices(run, g), 2 * d);
  }

  lemma AddRounding(a: nat, b: nat, p: nat, q: nat, l: nat, n: nat, d: nat)
    requires b * p <= a * q + a * b * d + b * l && l <= a * n
    ensures b * p <= a * q + a * b * (d + n)
  {
    ScaleBy(b, l, a * n);
    assert b * (a * n) == a * b * n;
    Distribute(a * b, d, n);
  }

  // ----- a weight that does not divide UNIT

  /** Slices of length one for group 0, and of the length of its own weight for group 1. */
  ghost predicate TurnRun(run: seq<Charge>, other: nat) {
    forall i | 0 <= i < |run| :: run[i].group <= 1 && run[i].slice == if run[i].group == 0 then 1 else other
  }

  /** Such a run of n slices, each to the group with the least vdisktime. */
  lemma {:induction false} TakeTurns(w: Weights, v: Times, other: nat, n: nat) returns (run: seq<Charge>, end: Times)
    requires Weighted(w, v) && v.Keys == {0, 1}
    ensures IsRun(w, v, run, end) && |run| == n && TurnRun(run, other)
  {
    if n == 0 {
      run, end := [], v;
    } else {
      assert 0 in v && 1 in v;
      var c := if v[0] <= v[1] then Charge(0, 1) else Charge(1, other);
      assert IsLeast(v, c.group);
      ServedWeighted(w, v, c);
      hide Served;
      var v' := Served(w, v, c);
      assert v'.Keys == v.Keys by { ServedKeys(w, v, c); }
      var rest, e := TakeTurns(w, v', other, n - 1);
      run, end := [c] + rest, e;
      assert run[1..] == rest;
    }
  }

  lemma ServedKeys(w: Weights, v: Times, c: Charge)
    requires Weighted(w, v) && c.group in v
    ensures Served(w, v, c).Keys == v.Keys
  {}

  lemma {:induction false} TurnRunLost(run: seq<Charge>, other: nat, g: nat, weight: nat)
    requires TurnRun(run, other) && weight > 0 && g <= 1
    ensures Slices(run, 0) + Slices(run, 1) == |run|
    ensures Lost(run, g, weight) == Mul(Slices(run, g), Dropped(if g == 0 then 1 else other, weight))
  {
    hide Dropped;
    if run != [] {
      TurnRunLost(run[1..], other, g, weight);
      MulStep(Slices(run[1..], g), Dropped(if g == 0 then 1 else other, weight));
      hide Mul;
    } else {
      MulStep(0, Dropped(if g == 0 then 1 else other, weight));
    }
  }

  lemma {:induction false} TurnRunEnd(w: Weights, v: Times, run: seq<Charge>, end: Times, other: nat, g: nat)
    requires Weighted(w, v) && IsRun(w, v, run, end) && TurnRun(run, other) && g in v && g in w && w[g] > 0 && g <= 1
    ensures g in end && end[g] == v[g] + Mul(Slices(run, g), Scaled(if g == 0 then 1 else other, w[g]))
    decreases |run|
  {
    hide Scaled;
    var k := Scaled(if g == 0 then 1 else other, w[g]);
    if run != [] {
      ServedWeighted(w, v, run[0]);
      TurnRunEnd(w, Served(w, v, run[0]), run[1..], end, other, g);
      MulStep(Slices(run[1..], g), k);
      hide Mul;
    } else {
      MulStep(0, k);
    }
  }

  /** A slice as long as the weight is charged one UNIT, and nothing is dropped. */
  lemma OwnWeight(weight: nat)
    requires weight > 0
    ensures Scaled(weight, weight) == UNIT && Dropped(weight, weight) == 0
  {
    ModIs(weight * UNIT, weight, UNIT, 0);
  }

  /** When the weight of a group does not divide UNIT no constant bounds how far it gets ahead of
      another group, whatever that one's weight. */
  lemma NotWithinAConstant(weight: nat, other: nat, bound: nat) returns (run: seq<Charge>, end: Times)
    requires weight > 0 && other > 0 && Mod(UNIT, weight) != 0
    ensures var w, v := map[0 := weight, 1 := other], map[0 := 0, 1 := 0];
            && IsRun(w, v, run, end) && ChargesWithin(w, run, Scaled(1, weight) + UNIT)
            && other * Units(run, 0) > weight * Units(run, 1) + bound
  {
    var w, v := map[0 := weight, 1 := other], map[0 := 0, 1 := 0];
    var s, r := Scaled(1, weight), Dropped(1, weight);
    var d := s + UNIT;
    var target := bound + Mul(weight, d) + 1;
    run, end := TakeTurns(w, v, other, Mul(target, d) + d);
    TurnRunFacts(w, v, run, end, weight, other);
    hide IsRun, TurnRun, Units, Scaled, Dropped, ChargesWithin;
    var n0, e0, e1 := Slices(run, 0), end[0], end[1];
    hide Mul, Slices;
    EnoughTurns(n0, Slices(run, 1), s, Mul(target, d), d);
    CancelMul(target, n0, d);
    Ahead(weight, other, r, n0, e0, e1, d, bound, Units(run, 0), Units(run, 1));
  }

  lemma TurnRunCharges(w: Weights, run: seq<Charge>, weight: nat, other: nat)
    requires weight > 0 && other > 0 && w == map[0 := weight, 1 := other] && TurnRun(run, other)
    ensures ChargesWithin(w, run, Scaled(1, weight) + UNIT)
  {
    hide Scaled;
    OwnWeight(other);
    assert w[0] == weight && w[1] == other;
  }

  lemma TurnRunFacts(w: Weights, v: Times, run: seq<Charge>, end: Times, weight: nat, other: nat)
    requires weight > 0 && other > 0 && Mod(UNIT, weight) != 0
    requires w == map[0 := weight, 1 := other] && v == map[0 := 0, 1 := 0]
    requires Weighted(w, v) && IsRun(w, v, run, end) && TurnRun(run, other)
    ensures Slices(run, 0) + Slices(run, 1) == |run| && 0 in end && 1 in end && Dropped(1, weight) >= 1
    ensures end[0] == Mul(Slices(run, 0), Scaled(1, weight)) && end[1] == Mul(Slices(run, 1), UNIT)
    ensures end[1] <= end[0] + (Scaled(1, weight) + UNIT) && ChargesWithin(w, run, Scaled(1, weight) + UNIT)
    ensures Units(run, 0) == Mul(weight, end[0]) + Mul(Slices(run, 0), Dropped(1, weight)) && Units(run, 1) == Mul(other, end[1])
  {
    assert w[0] == weight && w[1] == other && 0 in v && 1 in v;
    assert 1 * UNIT == UNIT && Dropped(1, weight) >= 1;
    hide Scaled, Dropped, IsRun, Lost, Slices, Service, TurnRun, Units;
    OwnWeight(other);
    TurnRunCharges(w, run, weight, other);
    SpreadStays(w, v, run, end, Scaled(1, weight) + UNIT);
    TurnRunEnd(w, v, run, end, other, 0);
    TurnRunEnd(w, v, run, end, other, 1);
    TurnRunLost(run, other, 0, weight);
    TurnRunLost(run, other, 1, other);
    ServiceIs(w, v, run, end, 0);
    ServiceIs(w, v, run, end, 1);
    hide ChargesWithin;
    assert Mul(Slices(run, 1), 0) == 0;
    hide Mul;
  }

  lemma EnoughTurns(n0: nat, n1: nat, s: nat, t: nat, d: nat)
    requires d == s + UNIT && n0 + n1 == t + d && Mul(n1, UNIT) <= Mul(n0, s) + d
    ensures Mul(n0, d) >= t
  {
    MulAdd(n0, s, UNIT);
    assert Mul(n1, UNIT) == UNIT * n1 && Mul(n0, UNIT) == UNIT * n0;
    hide Mul;
  }

  lemma Ahead(weight: nat, other: nat, r: nat, n: nat, e0: nat, e1: nat, d: nat, bound: nat, u0: nat, u1: nat)
    requires e1 <= e0 + d && r >= 1 && other >= 1 && n >= bound + Mul(weight, d) + 1
    requires u0 == Mul(weight, e0) + Mul(n, r) && u1 == Mul(other, e1)
    ensures other * u0 > weight * u1 + bound
  {
    assert Mul(weight, e1) <= Mul(weight, e0) + Mul(weight, d) by { ScaleBy(weight, e1, e0 + d); Distribute(weight, e0, d); }
    assert Mul(n, r) >= n by { AtLeast(n, r); }
    assert weight * u1 == Mul(other, Mul(weight, e1)) by { Swap(weight, other, e1); }
    assert other * u0 >= Mul(other, Mul(weight, e1) + (bound + 1)) by { ScaleBy(other, Mul(weight, e1) + (bound + 1), u0); }
    MulAdd(other, Mul(weight, e1), bound + 1);
    assert Mul(other, bound + 1) >= bound + 1 by { AtLeast(bound + 1, other); }
    hide Mul;
  }

  lemma Swap(a: nat, b: nat, c: nat)
    ensures a * Mul(b, c) == Mul(b, Mul(a, c))
  {
    assert a * (b * c) == b * (a * c);
  }
}
