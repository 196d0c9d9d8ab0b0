/** What the constraint system promises about every assignment it accepts. */
module Properties {
  import opened Network
  import opened Sums
  import opened Coffee

  /** Each variable of an admissible assignment lies in [0, INT32_MAX]. */
  lemma FeasibleWithinDomain(inst: Instance, a: Assignment)
    requires Feasible(inst, a)
    ensures forall e | e in ArcSet(inst.toRoastery) :: e in a.delivery && 0 <= a.delivery[e] <= INT32_MAX
    ensures forall e | e in ArcSet(inst.toCafe) ::
              && e in a.light && 0 <= a.light[e] <= INT32_MAX
              && e in a.dark && 0 <= a.dark[e] <= INT32_MAX
  {
  }

  /** A supplier of capacity 0 ships nothing on any of its arcs. */
  lemma ZeroCapacityForcesZeroFlow(inst: Instance, a: Assignment, s: Node)
    requires Feasible(inst, a)
    requires s in inst.capacity && inst.capacity[s] == 0
    ensures forall e | e in a.delivery && e.src == s :: a.delivery[e] == 0
  {
    var t := inst.toRoastery;
    forall e | e in a.delivery && e.src == s
      ensures a.delivery[e] == 0
    {
      var i :| 0 <= i < |t| && t[i].arc == e;
      assert s in Suppliers(inst) by {
        assert Endpoint(t[i].arc, Src) == s;
      }
      assert WithinCapacityAt(inst, a, s);
      FlowDominates(t, a.delivery, Src, i);
    }
  }

  /** Capacity bounds everything shipped: total supplier capacity is at
      least the sum of all deliveries. */
  lemma CapacityBoundsDeliveries(inst: Instance, a: Assignment, ss: seq<Node>)
    requires Feasible(inst, a)
    requires Enumerates(ss, Suppliers(inst))
    ensures forall k | 0 <= k < |ss| :: ss[k] in inst.capacity
    ensures SumMap(ss, inst.capacity) >= Total(inst.toRoastery, a.delivery)
  {
    var t := inst.toRoastery;
    assert forall k | 0 <= k < |ss| :: WithinCapacityAt(inst, a, ss[k]);
    SumFlowAtMost(ss, t, a.delivery, Src, inst.capacity);
    forall i | 0 <= i < |t| ensures Endpoint(t[i].arc, Src) in ss {
      assert Endpoint(t[i].arc, Src) in Suppliers(inst);
    }
    FlowPartition(ss, t, a.delivery, Src);
  }

  /** Balance conserves the total: when every roastery that ships to a café
      receives a balance constraint, all deliveries sum to all light plus
      dark shipments. */
  lemma BalanceConservesTotal(inst: Instance, a: Assignment)
    requires Feasible(inst, a)
    requires Ends(inst.toCafe, Src) <= Roasteries(inst)
    ensures Covers(inst.toCafe, Both(a.light, a.dark))
    ensures Total(inst.toRoastery, a.delivery) == Total(inst.toCafe, Both(a.light, a.dark))
  {
    var t, u := inst.toRoastery, inst.toCafe;
    var out := Both(a.light, a.dark);
    var rs := Enumerate(Roasteries(inst));
    forall i | 0 <= i < |t| ensures Endpoint(t[i].arc, Dst) in rs {
      assert Endpoint(t[i].arc, Dst) in Roasteries(inst);
    }
    FlowPartition(rs, t, a.delivery, Dst);
    assert forall k | 0 <= k < |rs| :: BalancedAt(inst, a, rs[k]);
    SumFlowSame(rs, t, a.delivery, Dst, u, out, Src);
    forall i | 0 <= i < |u| ensures Endpoint(u[i].arc, Src) in rs {
      assert Endpoint(u[i].arc, Src) in Ends(u, Src);
    }
    FlowPartition(rs, u, out, Src);
  }

  /** Demand bounds everything shipped to cafés from below. */
  lemma DemandBoundsShipments(inst: Instance, a: Assignment, cs: seq<Node>)
    requires Builds(inst) && Covers(inst.toCafe, a.light) && Covers(inst.toCafe, a.dark)
    requires MeetsDemand(inst, a)
    requires Enumerates(cs, Cafes(inst))
    ensures forall k | 0 <= k < |cs| :: cs[k] in inst.lightNeed && cs[k] in inst.darkNeed
    ensures Covers(inst.toCafe, Both(a.light, a.dark))
    ensures SumMap(cs, inst.lightNeed) + SumMap(cs, inst.darkNeed) <= Total(inst.toCafe, Both(a.light, a.dark))
  {
    var u := inst.toCafe;
    forall i | 0 <= i < |u| ensures Endpoint(u[i].arc, Dst) in cs {
      assert Endpoint(u[i].arc, Dst) in Cafes(inst);
    }
    SumFlowOfBoth(cs, u, a.light, a.dark, Dst);
    FlowPartition(cs, u, Both(a.light, a.dark), Dst);
    assert forall k | 0 <= k < |cs| :: MeetsDemandAt(inst, a, cs[k]);
    SumFlowAtLeast(cs, u, a.light, Dst, inst.lightNeed);
    SumFlowAtLeast(cs, u, a.dark, Dst, inst.darkNeed);
  }

  /** Supply covers demand. Suppose every roastery that ships to a café also
      receives a balance constraint. Then a feasible assignment needs total
      supplier capacity at least total light plus dark demand. The chain is
      capacity >= supplier outflow = roastery inflow = roastery outflow =
      café inflow >= demand. `ss` and `cs` are the supplier and café lists
      the builder iterates over, in whatever order. */
  lemma CapacityCoversDemand(inst: Instance, a: Assignment, ss: seq<Node>, cs: seq<Node>)
    requires Feasible(inst, a)
    requires Enumerates(ss, Suppliers(inst)) && Enumerates(cs, Cafes(inst))
    requires Ends(inst.toCafe, Src) <= Roasteries(inst)
    ensures SumMap(ss, inst.capacity) >= SumMap(cs, inst.lightNeed) + SumMap(cs, inst.darkNeed)
  {
    CapacityBoundsDeliveries(inst, a, ss);
    BalanceConservesTotal(inst, a);
    DemandBoundsShipments(inst, a, cs);
  }

  /** The infeasibility criterion: under the same hypothesis, total capacity
      below total demand leaves no feasible assignment. */
  lemma ShortSupplyInfeasible(inst: Instance, ss: seq<Node>, cs: seq<Node>)
    requires Builds(inst)
    requires Enumerates(ss, Suppliers(inst)) && Enumerates(cs, Cafes(inst))
    requires Ends(inst.toCafe, Src) <= Roasteries(inst)
    requires SumMap(ss, inst.capacity) < SumMap(cs, inst.lightNeed) + SumMap(cs, inst.darkNeed)
    ensures forall a :: !Feasible(inst, a)
  {
    forall a | Feasible(inst, a)
      ensures false
    {
      CapacityCoversDemand(inst, a, ss, cs);
    }
  }

  /** An instance that builds but has no feasible assignment has exactly
      one correct solver answer: Infeasible. */
  lemma OnlyAnswerInfeasible(inst: Instance)
    requires Builds(inst)
    requires forall a :: !Feasible(inst, a)
    ensures Answers(inst, Infeasible)
    ensures forall st | Answers(inst, st) :: st == Infeasible
  {
  }

  /** An instance that does not build has no correct solver answer at all,
      Infeasible included: the program raises before any status exists. */
  lemma NoAnswerWithoutBuild(inst: Instance)
    requires !Builds(inst)
    ensures forall st :: !Answers(inst, st)
  {
  }

  // ---------------------------------------------------------------------
  // Monotonicity
  // ---------------------------------------------------------------------

  /** `loose` differs from `tight` only by capacities raised and demands
      lowered, over the same names. */
  predicate Relaxes(tight: Instance, loose: Instance)
  {
    && loose.toRoastery == tight.toRoastery
    && loose.toCafe == tight.toCafe
    && loose.roastLight == tight.roastLight
    && loose.roastDark == tight.roastDark
    && loose.capacity.Keys == tight.capacity.Keys
    && loose.lightNeed.Keys == tight.lightNeed.Keys
    && loose.darkNeed.Keys == tight.darkNeed.Keys
    && (forall s | s in tight.capacity :: tight.capacity[s] <= loose.capacity[s])
    && (forall c | c in tight.lightNeed :: loose.lightNeed[c] <= tight.lightNeed[c])
    && (forall c | c in tight.darkNeed :: loose.darkNeed[c] <= tight.darkNeed[c])
  }

  /** Lowering demands or raising capacities keeps every feasible assignment
      feasible. */
  lemma RelaxationKeepsFeasible(tight: Instance, loose: Instance, a: Assignment)
    requires Relaxes(tight, loose) && Feasible(tight, a)
    ensures Feasible(loose, a)
  {
    assert Builds(loose);
    forall r | r in Roasteries(loose) ensures BalancedAt(loose, a, r) {
      assert BalancedAt(tight, a, r);
    }
    forall s | s in Suppliers(loose) ensures WithinCapacityAt(loose, a, s) {
      assert WithinCapacityAt(tight, a, s);
    }
    forall c | c in Cafes(loose) ensures MeetsDemandAt(loose, a, c) {
      assert MeetsDemandAt(tight, a, c);
    }
  }

  /** Lowering one light demand is a relaxation. */
  lemma LowerLightDemandRelaxes(inst: Instance, c: Node, v: int)
    requires c in inst.lightNeed && v <= inst.lightNeed[c]
    ensures Relaxes(inst, inst.(lightNeed := inst.lightNeed[c := v]))
  {
  }

  /** Lowering one dark demand is a relaxation. */
  lemma LowerDarkDemandRelaxes(inst: Instance, c: Node, v: int)
    requires c in inst.darkNeed && v <= inst.darkNeed[c]
    ensures Relaxes(inst, inst.(darkNeed := inst.darkNeed[c := v]))
  {
  }

  /** Raising one capacity is a relaxation. */
  lemma RaiseCapacityRelaxes(inst: Instance, s: Node, v: int)
    requires s in inst.capacity && inst.capacity[s] <= v
    ensures Relaxes(inst, inst.(capacity := inst.capacity[s := v]))
  {
  }

  /** The objective does not read capacities or demands. */
  lemma CostIgnoresLimits(tight: Instance, loose: Instance, a: Assignment)
    requires Relaxes(tight, loose) && Builds(tight) && Admissible(tight, a)
    ensures Builds(loose) && Admissible(loose, a)
    ensures Cost(loose, a) == Cost(tight, a)
  {
  }

  /** Relaxing never raises the optimum: the minimum cost does not decrease
      when a demand is raised, and does not increase when a capacity is
      raised. */
  lemma OptimumMonotone(tight: Instance, loose: Instance, a: Assignment, b: Assignment)
    requires Relaxes(tight, loose)
    requires IsOptimal(tight, a) && IsOptimal(loose, b)
    ensures Cost(loose, b) <= Cost(tight, a)
  {
    RelaxationKeepsFeasible(tight, loose, a);
    CostIgnoresLimits(tight, loose, a);
  }

  // ---------------------------------------------------------------------
  // No double counting
  // ---------------------------------------------------------------------

  /** A delivery variable enters exactly one supplier's capacity sum and
      exactly one roastery's inbound sum, each with coefficient 1. */
  lemma DeliveryCountedOnce(inst: Instance, a: Assignment, e: Arc, d: int)
    requires Covers(inst.toRoastery, a.delivery) && DistinctArcs(inst.toRoastery)
    requires e in ArcSet(inst.toRoastery)
    ensures e in a.delivery
    ensures Covers(inst.toRoastery, a.delivery[e := a.delivery[e] + d])
    ensures forall n ::
              Flow(inst.toRoastery, a.delivery[e := a.delivery[e] + d], Src, n)
                == Flow(inst.toRoastery, a.delivery, Src, n) + (if e.src == n then d else 0)
    ensures forall n ::
              Flow(inst.toRoastery, a.delivery[e := a.delivery[e] + d], Dst, n)
                == Flow(inst.toRoastery, a.delivery, Dst, n) + (if e.dst == n then d else 0)
  {
    assert Endpoint(e, Src) == e.src && Endpoint(e, Dst) == e.dst;
    FlowBumpAll(inst.toRoastery, a.delivery, e, d, Src);
    FlowBumpAll(inst.toRoastery, a.delivery, e, d, Dst);
  }

  /** A light variable enters exactly one roastery's outbound sum and
      exactly one café's light demand sum, each with coefficient 1. */
  lemma LightCountedOnce(inst: Instance, a: Assignment, e: Arc, d: int)
    requires Covers(inst.toCafe, a.light) && Covers(inst.toCafe, a.dark) && DistinctArcs(inst.toCafe)
    requires e in ArcSet(inst.toCafe)
    ensures e in a.light
    ensures Covers(inst.toCafe, a.light[e := a.light[e] + d]) && Covers(inst.toCafe, a.dark)
    ensures forall n ::
              Flow(inst.toCafe, Both(a.light[e := a.light[e] + d], a.dark), Src, n)
                == Flow(inst.toCafe, Both(a.light, a.dark), Src, n) + (if e.src == n then d else 0)
    ensures forall n ::
              Flow(inst.toCafe, a.light[e := a.light[e] + d], Dst, n)
                == Flow(inst.toCafe, a.light, Dst, n) + (if e.dst == n then d else 0)
  {
    var u := inst.toCafe;
    assert Endpoint(e, Src) == e.src && Endpoint(e, Dst) == e.dst;
    BothBumpLeftAll(u, a.light, a.dark, e, d, Src);
    FlowBumpAll(u, a.light, e, d, Dst);
  }

  /** A dark variable enters exactly one roastery's outbound sum and
      exactly one café's dark demand sum, each with coefficient 1. */
  lemma DarkCountedOnce(inst: Instance, a: Assignment, e: Arc, d: int)
    requires Covers(inst.toCafe, a.light) && Covers(inst.toCafe, a.dark) && DistinctArcs(inst.toCafe)
    requires e in ArcSet(inst.toCafe)
    ensures e in a.dark
    ensures Covers(inst.toCafe, a.light) && Covers(inst.toCafe, a.dark[e := a.dark[e] + d])
    ensures forall n ::
              Flow(inst.toCafe, Both(a.light, a.dark[e := a.dark[e] + d]), Src, n)
                == Flow(inst.toCafe, Both(a.light, a.dark), Src, n) + (if e.src == n then d else 0)
    ensures forall n ::
              Flow(inst.toCafe, a.dark[e := a.dark[e] + d], Dst, n)
                == Flow(inst.toCafe, a.dark, Dst, n) + (if e.dst == n then d else 0)
  {
    var u := inst.toCafe;
    assert Endpoint(e, Src) == e.src && Endpoint(e, Dst) == e.dst;
    BothBumpRightAll(u, a.light, a.dark, e, d, Src);
    FlowBumpAll(u, a.dark, e, d, Dst);
  }

  /** Summed over all suppliers, the capacity sums count every delivery
      once; likewise over all roasteries for the inbound sums. */
  lemma DeliveryPartitions(inst: Instance, a: Assignment, ss: seq<Node>, rs: seq<Node>)
    requires Admissible(inst, a)
    requires Enumerates(ss, Suppliers(inst)) && Enumerates(rs, Roasteries(inst))
    ensures SumFlow(ss, inst.toRoastery, a.delivery, Src) == Total(inst.toRoastery, a.delivery)
    ensures SumFlow(rs, inst.toRoastery, a.delivery, Dst) == Total(inst.toRoastery, a.delivery)
  {
    var t := inst.toRoastery;
    forall i | 0 <= i < |t| ensures Endpoint(t[i].arc, Src) in ss && Endpoint(t[i].arc, Dst) in rs {
      assert Endpoint(t[i].arc, Src) in Suppliers(inst);
      assert Endpoint(t[i].arc, Dst) in Roasteries(inst);
    }
    FlowPartition(ss, t, a.delivery, Src);
    FlowPartition(rs, t, a.delivery, Dst);
  }

  // ---------------------------------------------------------------------
  // Cost
  // ---------------------------------------------------------------------

  /** Every unit cost the objective reads is non-negative. */
  predicate NonNegativeCosts(inst: Instance)
    requires Builds(inst)
  {
    && (forall i | 0 <= i < |inst.toRoastery| :: inst.toRoastery[i].cost >= 0)
    && (forall i | 0 <= i < |inst.toCafe| :: inst.toCafe[i].cost >= 0)
    && (forall i | 0 <= i < |inst.toCafe| ::
          inst.roastLight[inst.toCafe[i].arc.src] >= 0 && inst.roastDark[inst.toCafe[i].arc.src] >= 0)
  }

  lemma {:induction false} SupplierShippingNonNegative(t: Table, x: map<Arc, int>)
    requires Covers(t, x) && NonNegative(t, x)
    requires forall i | 0 <= i < |t| :: t[i].cost >= 0
    ensures SupplierShipping(t, x) >= 0
  {
    if t != [] {
      SupplierShippingNonNegative(t[..|t| - 1], x);
      var e := t[|t| - 1];
      assert x[e.arc] * e.cost >= 0;
    }
  }

  lemma {:induction false} RoastingNonNegative(t: Table, l: map<Arc, int>, d: map<Arc, int>,
                                               pl: map<Node, int>, pd: map<Node, int>)
    requires Covers(t, l) && Covers(t, d) && NonNegative(t, l) && NonNegative(t, d)
    requires Keyed(t, Src, pl) && Keyed(t, Src, pd)
    requires forall i | 0 <= i < |t| :: pl[t[i].arc.src] >= 0 && pd[t[i].arc.src] >= 0
    ensures Roasting(t, l, d, pl, pd) >= 0
  {
    if t != [] {
      RoastingNonNegative(t[..|t| - 1], l, d, pl, pd);
      var e := t[|t| - 1];
      assert pl[e.arc.src] * l[e.arc] >= 0 && pd[e.arc.src] * d[e.arc] >= 0;
    }
  }

  lemma {:induction false} CafeShippingNonNegative(t: Table, l: map<Arc, int>, d: map<Arc, int>)
    requires Covers(t, l) && Covers(t, d) && NonNegative(t, l) && NonNegative(t, d)
    requires forall i | 0 <= i < |t| :: t[i].cost >= 0
    ensures CafeShipping(t, l, d) >= 0
  {
    if t != [] {
      CafeShippingNonNegative(t[..|t| - 1], l, d);
      var e := t[|t| - 1];
      assert (l[e.arc] + d[e.arc]) * e.cost >= 0;
    }
  }

  /** With non-negative unit costs, an admissible assignment costs at least 0. */
  lemma CostNonNegative(inst: Instance, a: Assignment)
    requires Builds(inst) && Admissible(inst, a) && NonNegativeCosts(inst)
    ensures Cost(inst, a) >= 0
  {
    SupplierShippingNonNegative(inst.toRoastery, a.delivery);
    RoastingNonNegative(inst.toCafe, a.light, a.dark, inst.roastLight, inst.roastDark);
    CafeShippingNonNegative(inst.toCafe, a.light, a.dark);
  }

  lemma {:induction false} RoastingSplits(t: Table, l: map<Arc, int>, d: map<Arc, int>,
                                          pl: map<Node, int>, pd: map<Node, int>)
    requires Covers(t, l) && Covers(t, d)
    requires Keyed(t, Src, pl) && Keyed(t, Src, pd)
    ensures Roasting(t, l, d, pl, pd) == ScaledTotal(t, l, Src, pl) + ScaledTotal(t, d, Src, pd)
  {
    if t != [] {
      RoastingSplits(t[..|t| - 1], l, d, pl, pd);
    }
  }

  /** Roasting is charged per unit of each product roasted at a roastery,
      whatever café it is shipped to: the objective's roasting part equals,
      summed over the roasteries that ship to cafés, each roastery's rate
      times its total outbound quantity of that product. */
  lemma RoastingChargedPerRoastery(inst: Instance, a: Assignment, rs: seq<Node>)
    requires Builds(inst) && Admissible(inst, a)
    requires Enumerates(rs, Ends(inst.toCafe, Src))
    ensures Roasting(inst.toCafe, a.light, a.dark, inst.roastLight, inst.roastDark)
         == SumScaledFlow(rs, inst.roastLight, inst.toCafe, a.light, Src)
            + SumScaledFlow(rs, inst.roastDark, inst.toCafe, a.dark, Src)
  {
    var u := inst.toCafe;
    forall k | 0 <= k < |rs| ensures rs[k] in inst.roastLight && rs[k] in inst.roastDark {
      assert rs[k] in Ends(u, Src);
      var i :| 0 <= i < |u| && Endpoint(u[i].arc, Src) == rs[k];
    }
    forall i | 0 <= i < |u| ensures Endpoint(u[i].arc, Src) in rs {
      assert Endpoint(u[i].arc, Src) in Ends(u, Src);
    }
    RoastingSplits(u, a.light, a.dark, inst.roastLight, inst.roastDark);
    ScaledPartition(rs, inst.roastLight, u, a.light, Src);
    ScaledPartition(rs, inst.roastDark, u, a.dark, Src);
  }
}
