/** The coffee supply-chain problem as the constraint builder states it:
    variable domains, roastery balance, supplier capacity, café demand,
    the cost objective, and what an optimal answer must be. */
module Coffee {
  import opened Network
  import opened Sums

  /** Upper bound of every decision variable's domain. */
  const INT32_MAX: int := 0x7FFF_FFFF

  /** The input tables. Edge-keyed cost tables keep their insertion order;
      node-keyed tables are looked up by name and may miss a name. */
  datatype Instance = Instance(
    capacity: map<Node, int>,   // per supplier
    toRoastery: Table,          // supplier -> roastery shipping cost
    roastLight: map<Node, int>, // per roastery, light roast
    roastDark: map<Node, int>,  // per roastery, dark roast
    toCafe: Table,              // roastery -> café shipping cost
    lightNeed: map<Node, int>,  // per café
    darkNeed: map<Node, int>)   // per café

  /** One value per decision variable: a delivery per supplier -> roastery
      key, a light and a dark quantity per roastery -> café key. */
  datatype Assignment = Assignment(
    delivery: map<Arc, int>,
    light: map<Arc, int>,
    dark: map<Arc, int>)

  /** Suppliers: sources of the supplier -> roastery keys. */
  function Suppliers(inst: Instance): set<Node>
  {
    Ends(inst.toRoastery, Src)
  }

  /** Roasteries that receive a balance constraint: destinations of the
      supplier -> roastery keys. */
  function Roasteries(inst: Instance): set<Node>
  {
    Ends(inst.toRoastery, Dst)
  }

  /** Cafés: destinations of the roastery -> café keys. */
  function Cafes(inst: Instance): set<Node>
  {
    Ends(inst.toCafe, Dst)
  }

  // ---------------------------------------------------------------------
  // Building the model: the node-keyed lookups it makes
  // ---------------------------------------------------------------------

  /** A lookup of a missing name while the constraints or the objective are
      built, in the order the builder makes them. */
  datatype BuildError = MissingCapacity | MissingDemand | MissingRoastingCost

  datatype Outcome = Pass | Fail(error: BuildError)

  /** Every lookup made while building constraints and objective succeeds. */
  predicate Builds(inst: Instance)
  {
    && Keyed(inst.toRoastery, Src, inst.capacity)
    && Keyed(inst.toCafe, Dst, inst.lightNeed)
    && Keyed(inst.toCafe, Dst, inst.darkNeed)
    && Keyed(inst.toCafe, Src, inst.roastLight)
    && Keyed(inst.toCafe, Src, inst.roastDark)
  }

  /** The first failing lookup, if any: capacities are looked up before
      demands, and demands before roasting costs. */
  function Check(inst: Instance): (r: Outcome)
    ensures r.Pass? <==> Builds(inst)
    ensures r == Fail(MissingCapacity) <==>
              exists i | 0 <= i < |inst.toRoastery| :: inst.toRoastery[i].arc.src !in inst.capacity
    ensures r == Fail(MissingDemand) <==>
              && Keyed(inst.toRoastery, Src, inst.capacity)
              && !(Keyed(inst.toCafe, Dst, inst.lightNeed) && Keyed(inst.toCafe, Dst, inst.darkNeed))
    ensures r == Fail(MissingRoastingCost) <==>
              && Keyed(inst.toRoastery, Src, inst.capacity)
              && Keyed(inst.toCafe, Dst, inst.lightNeed) && Keyed(inst.toCafe, Dst, inst.darkNeed)
              && !(Keyed(inst.toCafe, Src, inst.roastLight) && Keyed(inst.toCafe, Src, inst.roastDark))
  {
    if !(Suppliers(inst) <= inst.capacity.Keys) then Fail(MissingCapacity)
    else if !(Cafes(inst) <= inst.lightNeed.Keys && Cafes(inst) <= inst.darkNeed.Keys) then Fail(MissingDemand)
    else if !(Ends(inst.toCafe, Src) <= inst.roastLight.Keys && Ends(inst.toCafe, Src) <= inst.roastDark.Keys)
    then Fail(MissingRoastingCost)
    else Pass
  }

  // ---------------------------------------------------------------------
  // Variable domains
  // ---------------------------------------------------------------------

  /** One variable per key of `t`, each in [0, INT32_MAX]. */
  predicate InDomain(x: map<Arc, int>, t: Table)
  {
    && x.Keys == ArcSet(t)
    && forall a | a in x :: 0 <= x[a] <= INT32_MAX
  }

  predicate Admissible(inst: Instance, a: Assignment)
  {
    && InDomain(a.delivery, inst.toRoastery)
    && InDomain(a.light, inst.toCafe)
    && InDomain(a.dark, inst.toCafe)
  }

  // ---------------------------------------------------------------------
  // Constraints
  // ---------------------------------------------------------------------

  /** Inbound delivery at `r` equals its outbound light plus dark. */
  predicate BalancedAt(inst: Instance, a: Assignment, r: Node)
    requires Admissible(inst, a)
  {
    Flow(inst.toRoastery, a.delivery, Dst, r) == Flow(inst.toCafe, Both(a.light, a.dark), Src, r)
  }

  predicate Balanced(inst: Instance, a: Assignment)
    requires Admissible(inst, a)
  {
    forall r | r in Roasteries(inst) :: BalancedAt(inst, a, r)
  }

  /** Outbound delivery of `s` is at most its capacity. */
  predicate WithinCapacityAt(inst: Instance, a: Assignment, s: Node)
    requires Admissible(inst, a) && s in inst.capacity
  {
    Flow(inst.toRoastery, a.delivery, Src, s) <= inst.capacity[s]
  }

  predicate WithinCapacity(inst: Instance, a: Assignment)
    requires Admissible(inst, a) && Builds(inst)
  {
    forall s | s in Suppliers(inst) :: WithinCapacityAt(inst, a, s)
  }

  /** Inbound light and inbound dark at `c` each reach the café's demand. */
  predicate MeetsDemandAt(inst: Instance, a: Assignment, c: Node)
    requires Covers(inst.toCafe, a.light) && Covers(inst.toCafe, a.dark)
    requires c in inst.lightNeed && c in inst.darkNeed
  {
    && Flow(inst.toCafe, a.light, Dst, c) >= inst.lightNeed[c]
    && Flow(inst.toCafe, a.dark, Dst, c) >= inst.darkNeed[c]
  }

  predicate MeetsDemand(inst: Instance, a: Assignment)
    requires Covers(inst.toCafe, a.light) && Covers(inst.toCafe, a.dark) && Builds(inst)
  {
    forall c | c in Cafes(inst) :: MeetsDemandAt(inst, a, c)
  }

  /** The model builds, and the assignment satisfies every domain and every
      constraint of it. */
  predicate Feasible(inst: Instance, a: Assignment)
  {
    && Builds(inst)
    && Admissible(inst, a)
    && Balanced(inst, a)
    && WithinCapacity(inst, a)
    && MeetsDemand(inst, a)
  }

  // ---------------------------------------------------------------------
  // Objective
  // ---------------------------------------------------------------------

  /** Delivery times shipping cost, over the supplier -> roastery keys. */
  function SupplierShipping(t: Table, x: map<Arc, int>): int
    requires Covers(t, x)
  {
    if t == [] then 0
    else
      var e := t[|t| - 1];
      SupplierShipping(t[..|t| - 1], x) + x[e.arc] * e.cost
  }

  /** Roasting cost of the key's source roastery, for light and for dark,
      over the roastery -> café keys. */
  function Roasting(t: Table, light: map<Arc, int>, dark: map<Arc, int>,
                    rateLight: map<Node, int>, rateDark: map<Node, int>): int
    requires Covers(t, light) && Covers(t, dark)
    requires Keyed(t, Src, rateLight) && Keyed(t, Src, rateDark)
  {
    if t == [] then 0
    else
      var e := t[|t| - 1];
      Roasting(t[..|t| - 1], light, dark, rateLight, rateDark)
        + (rateLight[e.arc.src] * light[e.arc] + rateDark[e.arc.src] * dark[e.arc])
  }

  /** Light plus dark times shipping cost, over the roastery -> café keys. */
  function CafeShipping(t: Table, light: map<Arc, int>, dark: map<Arc, int>): int
    requires Covers(t, light) && Covers(t, dark)
  {
    if t == [] then 0
    else
      var e := t[|t| - 1];
      CafeShipping(t[..|t| - 1], light, dark) + (light[e.arc] + dark[e.arc]) * e.cost
  }

  /** The objective to minimise. */
  function Cost(inst: Instance, a: Assignment): int
    requires Builds(inst) && Admissible(inst, a)
  {
    SupplierShipping(inst.toRoastery, a.delivery)
      + Roasting(inst.toCafe, a.light, a.dark, inst.roastLight, inst.roastDark)
      + CafeShipping(inst.toCafe, a.light, a.dark)
  }

  // ---------------------------------------------------------------------
  // What the solver is asked for
  // ---------------------------------------------------------------------

  /** Feasible, and no feasible assignment costs less. */
  ghost predicate IsOptimal(inst: Instance, a: Assignment)
  {
    && Feasible(inst, a)
    && forall b | Feasible(inst, b) :: Cost(inst, a) <= Cost(inst, b)
  }

  datatype Status = Optimal(assignment: Assignment) | Infeasible

  /** A correct answer of the solver for `inst`. An instance that does not
      build has none: the program stops at the failing lookup before the
      solver is called. */
  ghost predicate Answers(inst: Instance, st: Status)
  {
    match st
    case Optimal(a) => IsOptimal(inst, a)
    case Infeasible => Builds(inst) && forall a :: !Feasible(inst, a)
  }
}
