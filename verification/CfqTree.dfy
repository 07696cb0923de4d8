/** The group service tree of block/cfq-iosched.c in place: a tree ordered by vdisktime, with its
    leftmost group cached. */
module CfqTree {
  import opened Options
  import opened Lists
  import opened CfqFairness

  datatype Group = Group(weight: nat, vdisktime: nat)

  type Groups = map<nat, Group>

  function TimesOf(gs: Groups): (v: Times)
    ensures v.Keys == gs.Keys
  {
    map g | g in gs :: gs[g].vdisktime
  }

  function WeightsOf(gs: Groups): (w: Weights)
    ensures w.Keys == gs.Keys
  {
    map g | g in gs :: gs[g].weight
  }

  /** The tree holds the groups other than those in `off`, by ascending vdisktime. */
  ghost predicate InOrder(gs: Groups, order: seq<nat>, off: set<nat>) {
    && NoDup(order)
    && (forall g :: g in order <==> g in gs && g !in off)
    && (forall i, j | 0 <= i < j < |order| :: gs[order[i]].vdisktime <= gs[order[j]].vdisktime)
  }

  /** The cached leftmost group, if there is one, is the first. */
  ghost predicate CacheOk(order: seq<nat>, left: Option<nat>) {
    left.Some? ==> order != [] && left.value == order[0]
  }

  ghost predicate GroupsOk(gs: Groups, min: nat) {
    forall g | g in gs :: gs[g].weight > 0 && min <= gs[g].vdisktime
  }

  lemma FirstIsLeast(gs: Groups, order: seq<nat>)
    requires InOrder(gs, order, {}) && order != []
    ensures order[0] in gs && IsLeast(TimesOf(gs), order[0])
  {
    assert order[0] in order;
    forall h | h in gs
      ensures gs[order[0]].vdisktime <= gs[h].vdisktime
    {
      assert h in order;
      var i :| 0 <= i < |order| && order[i] == h;
    }
  }

  lemma LastIsGreatest(gs: Groups, order: seq<nat>)
    requires InOrder(gs, order, {}) && order != []
    ensures var last := order[|order| - 1]; last in gs && forall h | h in gs :: gs[h].vdisktime <= gs[last].vdisktime
  {
    assert order[|order| - 1] in order;
    forall h | h in gs
      ensures gs[h].vdisktime <= gs[order[|order| - 1]].vdisktime
    {
      assert h in order;
      var i :| 0 <= i < |order| && order[i] == h;
    }
  }

  /** A time that is `delay` behind all groups on the tree and no further, or the least if there is none. */
  ghost predicate Behind(gs: Groups, order: seq<nat>, min: nat, delay: nat, time: nat) {
    && (order == [] ==> time == min)
    && (forall h | h in order :: h in gs && gs[h].vdisktime + delay <= time)
    && (order != [] ==> exists h | h in order :: h in gs && gs[h].vdisktime + delay == time)
  }

  lemma BehindAll(gs: Groups, order: seq<nat>, min: nat, delay: nat, time: nat, g: nat, weight: nat)
    requires InOrder(gs, order, {}) && GroupsOk(gs, min) && g !in gs && weight > 0
    requires order == [] ==> time == min
    requires order != [] ==> order[|order| - 1] in gs && time == gs[order[|order| - 1]].vdisktime + delay
    ensures Behind(gs, order, min, delay, time)
    ensures var gs' := gs[g := Group(weight, time)];
            GroupsOk(gs', min) && forall h | h in gs' :: gs'[h].vdisktime <= time
  {
    if order != [] {
      LastIsGreatest(gs, order);
      assert order[|order| - 1] in order;
    } else {
      assert forall h | h in gs :: h in order;
    }
  }

  lemma NewIsOff(gs: Groups, order: seq<nat>, g: nat, group: Group)
    requires InOrder(gs, order, {}) && g !in gs
    ensures InOrder(gs[g := group], order, {g})
  {
    forall i | 0 <= i < |order|
      ensures order[i] in gs && order[i] != g
    {
      assert order[i] in order;
    }
  }

  lemma ErasedInOrder(gs: Groups, order: seq<nat>, g: nat)
    requires InOrder(gs, order, {}) && g in order
    ensures InOrder(gs, Without(order, g), {g})
  {
    hide IndexOf;
    WithoutMembers(order, g);
    var r := Without(order, g);
    forall i, j | 0 <= i < j < |r|
      ensures r[i] in gs && r[j] in gs && gs[r[i]].vdisktime <= gs[r[j]].vdisktime
    {
      WithoutAt(order, g, i);
      WithoutAt(order, g, j);
      assert r[i] in r && r[j] in r;
    }
  }

  lemma ErasedCache(order: seq<nat>, left: Option<nat>, g: nat)
    requires NoDup(order) && CacheOk(order, left) && g in order
    ensures CacheOk(Without(order, g), if left == Some(g) then None else left)
  {
    if left.Some? && left.value != g {
      assert |order| > 1;
      WithoutAt(order, g, 0);
    }
  }

  /** What is off the tree may change. */
  lemma OffMayChange(gs: Groups, order: seq<nat>, g: nat, group: Group)
    requires InOrder(gs, order, {g}) && g in gs
    ensures InOrder(gs[g := group], order, {g})
  {
    forall i | 0 <= i < |order|
      ensures order[i] in gs && order[i] != g
    {
      assert order[i] in order;
    }
  }

  lemma InsertedInOrder(gs: Groups, order: seq<nat>, g: nat, k: nat)
    requires InOrder(gs, order, {g}) && g in gs && k <= |order|
    requires forall i | 0 <= i < k :: order[i] in gs && gs[order[i]].vdisktime <= gs[g].vdisktime
    requires forall i | k <= i < |order| :: order[i] in gs && gs[g].vdisktime <= gs[order[i]].vdisktime
    ensures InOrder(gs, InsertAt(order, k, g), {})
  {
    hide InsertAt;
    InsertAtMembers(order, k, g);
    InsertAtIs(order, k, g);
    var r := InsertAt(order, k, g);
    forall i, j | 0 <= i < j < |r|
      ensures r[i] in gs && r[j] in gs && gs[r[i]].vdisktime <= gs[r[j]].vdisktime
    {
      assert r[i] in r && r[j] in r;
      if i >= k { assert r[j] == order[j - 1]; }
    }
  }

  class ServiceTree {
    const idleDelay: nat     // CFQ_IDLE_DELAY
    var groups: Groups
    var order: seq<nat>      // the nodes of the tree in order
    var left: Option<nat>
    var active: Option<nat>
    var minVdisktime: nat

    ghost predicate ValidBut(off: set<nat>)
      reads this
    {
      && InOrder(groups, order, off) && CacheOk(order, left) && GroupsOk(groups, minVdisktime)
      && (active.Some? ==> active.value in groups)
    }

    ghost predicate Valid()
      reads this
    {
      ValidBut({})
    }

    constructor (delay: nat)
      ensures Valid() && groups == map[] && idleDelay == delay
    {
      idleDelay := delay;
      groups, order, left, active, minVdisktime := map[], [], None, None, 0;
    }

    /** cfq_rb_erase */
    method Erase(g: nat)
      requires Valid() && g in order
      modifies this`order, this`left
      ensures ValidBut({g}) && order == Without(old(order), g)
    {
      hide Without, GroupsOk;
      ErasedInOrder(groups, order, g);
      ErasedCache(order, left, g);
      if left == Some(g) { left := None; }
      order := Without(order, g);
    }

    /** __cfq_group_service_tree_add: a descent through a tree of any shape, past equal keys to the
        right. */
    method Add(g: nat) returns (ghost k: nat)
      requires ValidBut({g}) && g in groups
      modifies this`order, this`left
      ensures Valid() && k <= |old(order)| && order == InsertAt(old(order), k, g)
      ensures forall h | h in old(order)[k..] :: h in groups && groups[g].vdisktime < groups[h].vdisktime
    {
      hide GroupsOk;
      var gs, nodes, min := groups, order, minVdisktime;
      Ordered(gs, nodes, {g});
      var key := gs[g].vdisktime - min;
      var lo, hi, leftmost := 0, |nodes|, true;
      while lo < hi
        invariant lo <= hi <= |nodes| && leftmost == (lo == 0)
        invariant forall i | 0 <= i < lo :: gs[nodes[i]].vdisktime <= gs[g].vdisktime
        invariant forall i | hi <= i < |nodes| :: gs[g].vdisktime < gs[nodes[i]].vdisktime
      {
        var mid :| lo <= mid < hi;
        if key < gs[nodes[mid]].vdisktime - min {
          hi := mid;
        } else {
          lo, leftmost := mid + 1, false;
        }
      }
      InsertedInOrder(gs, nodes, g, lo);
      hide InOrder;
      if leftmost { left := Some(g); }
      order := InsertAt(nodes, lo, g);
      k := lo;
    }

    /** cfq_group_service_tree_add for a group that is not on the tree: it starts CFQ_IDLE_DELAY behind
        the last of the others, or at min_vdisktime if there is none. */
    method AddGroup(g: nat, weight: nat)
      requires Valid() && g !in groups && weight > 0
      modifies this
      ensures Valid() && g in groups && groups == old(groups)[g := groups[g]] && groups[g].weight == weight
      ensures forall h | h in groups :: groups[h].vdisktime <= groups[g].vdisktime
      ensures Behind(old(groups), old(order), old(minVdisktime), idleDelay, groups[g].vdisktime)
    {
      var vdisktime := minVdisktime;
      if order != [] {
        LastIsGreatest(groups, order);
        vdisktime := groups[order[|order| - 1]].vdisktime + idleDelay;
      }
      BehindAll(groups, order, minVdisktime, idleDelay, vdisktime, g, weight);
      NewIsOff(groups, order, g, Group(weight, vdisktime));
      hide InOrder, GroupsOk, Behind;
      groups := groups[g := Group(weight, vdisktime)];
      var _ := Add(g);
    }

    /** cfq_rb_first_group */
    method First() returns (g: Option<nat>)
      requires Valid()
      modifies this`left
      ensures Valid() && g == left && (g.None? <==> order == [])
    {
      if left.None? && order != [] { left := Some(order[0]); }
      return left;
    }

    /** update_min_vdisktime: with a leftmost group at hand it never passes the least vdisktime;
        without one it goes by the active group alone. */
    method UpdateMin()
      requires Valid()
      modifies this`minVdisktime
      ensures left.Some? || active.None? ==> Valid()
      ensures active.None? ==> minVdisktime == old(minVdisktime)
      ensures active.Some? && left.Some? ==> minVdisktime == groups[left.value].vdisktime
      ensures active.Some? && left.None? ==>
                minVdisktime == if groups[active.value].vdisktime > old(minVdisktime) then groups[active.value].vdisktime else old(minVdisktime)
    {
      var vdisktime := minVdisktime;
      if active.Some? { vdisktime := groups[active.value].vdisktime; }
      if left.Some? {
        FirstIsLeast(groups, order);
        if groups[left.value].vdisktime < vdisktime { vdisktime := groups[left.value].vdisktime; }
        assert vdisktime <= groups[left.value].vdisktime && (active.Some? ==> vdisktime == groups[left.value].vdisktime);
        MinMayRise(groups, minVdisktime, left.value, vdisktime);
      }
      hide InOrder, GroupsOk;
      if vdisktime > minVdisktime { minVdisktime := vdisktime; }
    }

    /** cfq_get_next_cfqg: a group with the least vdisktime, which then is min_vdisktime. */
    method GetNext() returns (g: Option<nat>)
      requires Valid()
      modifies this`left, this`active, this`minVdisktime
      ensures Valid() && (g.None? <==> groups == map[])
      ensures g.Some? ==> IsLeast(TimesOf(groups), g.value) && minVdisktime == groups[g.value].vdisktime && active == g
    {
      if order == [] {
        assert forall x | x in groups :: x in order;
        return None;
      }
      FirstIsLeast(groups, order);
      g := First();
      active := g;
      UpdateMin();
    }

    /** cfq_group_served: the group is charged what module CfqFairness says. */
    method GroupServed(g: nat, charge: nat)
      requires Valid() && g in groups
      modifies this
      ensures Valid() && Weighted(WeightsOf(old(groups)), TimesOf(old(groups)))
      ensures TimesOf(groups) == Served(WeightsOf(old(groups)), TimesOf(old(groups)), Charge(g, charge))
      ensures WeightsOf(groups) == WeightsOf(old(groups))
    {
      hide Served, CacheOk, InOrder, GroupsOk, Scaled, TimesOf, WeightsOf, Weighted, Without;
      OnTree(groups, order, minVdisktime, g);
      ServedTimes(groups, minVdisktime, g, charge);
      Erase(g);
      var group := groups[g].(vdisktime := groups[g].vdisktime + Scaled(charge, groups[g].weight));
      OffMayChange(groups, order, g, group);
      groups := groups[g := group];
      var _ := Add(g);
    }
  }

  lemma MinMayRise(gs: Groups, min: nat, first: nat, vdisktime: nat)
    requires GroupsOk(gs, min) && IsLeast(TimesOf(gs), first) && first in gs && vdisktime <= gs[first].vdisktime
    ensures GroupsOk(gs, vdisktime) && min <= gs[first].vdisktime
  {
    forall g | g in gs
      ensures vdisktime <= gs[g].vdisktime
    {
      assert TimesOf(gs)[first] <= TimesOf(gs)[g];
    }
  }

  lemma OnTree(gs: Groups, order: seq<nat>, min: nat, g: nat)
    requires InOrder(gs, order, {}) && GroupsOk(gs, min) && g in gs
    ensures g in order && gs[g].weight > 0
  {}

  lemma ServedTimes(gs: Groups, min: nat, g: nat, charge: nat)
    requires GroupsOk(gs, min) && g in gs && gs[g].weight > 0
    ensures Weighted(WeightsOf(gs), TimesOf(gs))
    ensures var gs' := gs[g := gs[g].(vdisktime := gs[g].vdisktime + Scaled(charge, gs[g].weight))];
            && TimesOf(gs') == Served(WeightsOf(gs), TimesOf(gs), Charge(g, charge))
            && WeightsOf(gs') == WeightsOf(gs) && GroupsOk(gs', min)
  {
    hide Scaled;
  }

  lemma Ordered(gs: Groups, order: seq<nat>, off: set<nat>)
    requires InOrder(gs, order, off)
    ensures forall i | 0 <= i < |order| :: order[i] in gs
  {
    forall i | 0 <= i < |order|
      ensures order[i] in gs
    {
      assert order[i] in order;
    }
  }
}
