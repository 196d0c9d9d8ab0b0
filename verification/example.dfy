/** The repository's own instance and a small instance showing a gap of
    the balance constraints. */
module Example {
  import opened Network
  import opened Sums
  import opened Coffee

  /** The hard-coded tables: three suppliers, two roasteries, three cafés. */
  const Shop: Instance := Instance(
    map["supplier1" := 150, "supplier2" := 50, "supplier3" := 100],
    [ Entry(Arc("supplier1", "roastery1"), 5),
      Entry(Arc("supplier1", "roastery2"), 4),
      Entry(Arc("supplier2", "roastery1"), 6),
      Entry(Arc("supplier2", "roastery2"), 3),
      Entry(Arc("supplier3", "roastery1"), 2),
      Entry(Arc("supplier3", "roastery2"), 7) ],
    map["roastery1" := 3, "roastery2" := 5],
    map["roastery1" := 5, "roastery2" := 6],
    [ Entry(Arc("roastery1", "cafe1"), 5),
      Entry(Arc("roastery1", "cafe2"), 3),
      Entry(Arc("roastery1", "cafe3"), 6),
      Entry(Arc("roastery2", "cafe1"), 4),
      Entry(Arc("roastery2", "cafe2"), 5),
      Entry(Arc("roastery2", "cafe3"), 2) ],
    map["cafe1" := 20, "cafe2" := 30, "cafe3" := 40],
    map["cafe1" := 20, "cafe2" := 20, "cafe3" := 100])

  /** One feasible plan for `Shop`: roastery1 serves cafés 1 and 2 from
      supplier3; roastery2 serves café 3 from suppliers 1 and 2. */
  const Plan: Assignment := Assignment(
    map[Arc("supplier1", "roastery1") := 0, Arc("supplier1", "roastery2") := 90,
        Arc("supplier2", "roastery1") := 0, Arc("supplier2", "roastery2") := 50,
        Arc("supplier3", "roastery1") := 90, Arc("supplier3", "roastery2") := 0],
    map[Arc("roastery1", "cafe1") := 20, Arc("roastery1", "cafe2") := 30, Arc("roastery1", "cafe3") := 0,
        Arc("roastery2", "cafe1") := 0, Arc("roastery2", "cafe2") := 0, Arc("roastery2", "cafe3") := 40],
    map[Arc("roastery1", "cafe1") := 20, Arc("roastery1", "cafe2") := 20, Arc("roastery1", "cafe3") := 0,
        Arc("roastery2", "cafe1") := 0, Arc("roastery2", "cafe2") := 0, Arc("roastery2", "cafe3") := 100])

  // ---------------------------------------------------------------------
  // Six-arc tables: unfolding the sums, and constraints checked per node
  // ---------------------------------------------------------------------

  function Term(t: Table, x: map<Arc, int>, end: End, n: Node, i: nat): int
    requires Covers(t, x) && i < |t|
  {
    if Endpoint(t[i].arc, end) == n then x[t[i].arc] else 0
  }

  lemma FlowStep(t: Table, x: map<Arc, int>, end: End, n: Node, i: nat)
    requires Covers(t, x) && i < |t|
    ensures Flow(t[..i + 1], x, end, n) == Flow(t[..i], x, end, n) + Term(t, x, end, n, i)
  {
    assert t[..i + 1][..i] == t[..i];
  }

  lemma FlowOfThree(t: Table, x: map<Arc, int>, end: End, n: Node)
    requires Covers(t, x) && |t| >= 3
    ensures Flow(t[..3], x, end, n) == Term(t, x, end, n, 0) + Term(t, x, end, n, 1) + Term(t, x, end, n, 2)
  {
    assert t[..0] == [];
    FlowStep(t, x, end, n, 0);
    FlowStep(t, x, end, n, 1);
    FlowStep(t, x, end, n, 2);
  }

  lemma FlowOfSix(t: Table, x: map<Arc, int>, end: End, n: Node)
    requires Covers(t, x) && |t| == 6
    ensures Flow(t, x, end, n)
         == Term(t, x, end, n, 0) + Term(t, x, end, n, 1) + Term(t, x, end, n, 2)
            + Term(t, x, end, n, 3) + Term(t, x, end, n, 4) + Term(t, x, end, n, 5)
  {
    FlowOfThree(t, x, end, n);
    FlowStep(t, x, end, n, 3);
    FlowStep(t, x, end, n, 4);
    FlowStep(t, x, end, n, 5);
    assert t[..6] == t;
  }

  lemma SupplierShippingStep(t: Table, x: map<Arc, int>, i: nat)
    requires Covers(t, x) && i < |t|
    ensures SupplierShipping(t[..i + 1], x) == SupplierShipping(t[..i], x) + x[t[i].arc] * t[i].cost
  {
    assert t[..i + 1][..i] == t[..i];
  }

  lemma SupplierShippingOfSix(t: Table, x: map<Arc, int>)
    requires Covers(t, x) && |t| == 6
    ensures SupplierShipping(t, x)
         == x[t[0].arc] * t[0].cost + x[t[1].arc] * t[1].cost + x[t[2].arc] * t[2].cost
            + x[t[3].arc] * t[3].cost + x[t[4].arc] * t[4].cost + x[t[5].arc] * t[5].cost
  {
    assert t[..0] == [];
    SupplierShippingStep(t, x, 0);
    SupplierShippingStep(t, x, 1);
    SupplierShippingStep(t, x, 2);
    SupplierShippingStep(t, x, 3);
    SupplierShippingStep(t, x, 4);
    SupplierShippingStep(t, x, 5);
    assert t[..6] == t;
  }

  function RoastTerm(u: Table, l: map<Arc, int>, d: map<Arc, int>, pl: map<Node, int>, pd: map<Node, int>, i: nat): int
    requires Covers(u, l) && Covers(u, d) && Keyed(u, Src, pl) && Keyed(u, Src, pd) && i < |u|
  {
    assert Endpoint(u[i].arc, Src) == u[i].arc.src;
    pl[u[i].arc.src] * l[u[i].arc] + pd[u[i].arc.src] * d[u[i].arc]
  }

  lemma RoastingStep(u: Table, l: map<Arc, int>, d: map<Arc, int>, pl: map<Node, int>, pd: map<Node, int>, i: nat)
    requires Covers(u, l) && Covers(u, d) && Keyed(u, Src, pl) && Keyed(u, Src, pd) && i < |u|
    ensures Roasting(u[..i + 1], l, d, pl, pd) == Roasting(u[..i], l, d, pl, pd) + RoastTerm(u, l, d, pl, pd, i)
  {
    assert u[..i + 1][..i] == u[..i];
  }

  lemma RoastingOfSix(u: Table, l: map<Arc, int>, d: map<Arc, int>, pl: map<Node, int>, pd: map<Node, int>)
    requires Covers(u, l) && Covers(u, d) && Keyed(u, Src, pl) && Keyed(u, Src, pd) && |u| == 6
    ensures Roasting(u, l, d, pl, pd)
         == RoastTerm(u, l, d, pl, pd, 0) + RoastTerm(u, l, d, pl, pd, 1) + RoastTerm(u, l, d, pl, pd, 2)
            + RoastTerm(u, l, d, pl, pd, 3) + RoastTerm(u, l, d, pl, pd, 4) + RoastTerm(u, l, d, pl, pd, 5)
  {
    assert u[..0] == [];
    RoastingStep(u, l, d, pl, pd, 0);
    RoastingStep(u, l, d, pl, pd, 1);
    RoastingStep(u, l, d, pl, pd, 2);
    RoastingStep(u, l, d, pl, pd, 3);
    RoastingStep(u, l, d, pl, pd, 4);
    RoastingStep(u, l, d, pl, pd, 5);
    assert u[..6] == u;
  }

  lemma CafeShippingStep(u: Table, l: map<Arc, int>, d: map<Arc, int>, i: nat)
    requires Covers(u, l) && Covers(u, d) && i < |u|
    ensures CafeShipping(u[..i + 1], l, d) == CafeShipping(u[..i], l, d) + (l[u[i].arc] + d[u[i].arc]) * u[i].cost
  {
    assert u[..i + 1][..i] == u[..i];
  }

  lemma CafeShippingOfThree(u: Table, l: map<Arc, int>, d: map<Arc, int>)
    requires Covers(u, l) && Covers(u, d) && |u| >= 3
    ensures CafeShipping(u[..3], l, d)
         == (l[u[0].arc] + d[u[0].arc]) * u[0].cost + (l[u[1].arc] + d[u[1].arc]) * u[1].cost
            + (l[u[2].arc] + d[u[2].arc]) * u[2].cost
  {
    assert u[..0] == [];
    CafeShippingStep(u, l, d, 0);
    CafeShippingStep(u, l, d, 1);
    CafeShippingStep(u, l, d, 2);
  }

  lemma CafeShippingOfSix(u: Table, l: map<Arc, int>, d: map<Arc, int>)
    requires Covers(u, l) && Covers(u, d) && |u| == 6
    ensures CafeShipping(u, l, d)
         == (l[u[0].arc] + d[u[0].arc]) * u[0].cost + (l[u[1].arc] + d[u[1].arc]) * u[1].cost
            + (l[u[2].arc] + d[u[2].arc]) * u[2].cost + (l[u[3].arc] + d[u[3].arc]) * u[3].cost
            + (l[u[4].arc] + d[u[4].arc]) * u[4].cost + (l[u[5].arc] + d[u[5].arc]) * u[5].cost
  {
    CafeShippingOfThree(u, l, d);
    CafeShippingStep(u, l, d, 3);
    CafeShippingStep(u, l, d, 4);
    CafeShippingStep(u, l, d, 5);
    assert u[..6] == u;
  }

  lemma CoversOfSix(x: map<Arc, int>, t: Table)
    requires |t| == 6
    requires x.Keys == {t[0].arc, t[1].arc, t[2].arc, t[3].arc, t[4].arc, t[5].arc}
    ensures Covers(t, x)
  {
  }

  /** A variable map over a six-arc table is in its domain when its keys
      are the six arcs and each value is in range. */
  lemma InDomainOfSix(x: map<Arc, int>, t: Table)
    requires |t| == 6
    requires x.Keys == {t[0].arc, t[1].arc, t[2].arc, t[3].arc, t[4].arc, t[5].arc}
    requires forall i | 0 <= i < |t| :: 0 <= x[t[i].arc] <= INT32_MAX
    ensures InDomain(x, t)
  {
    assert t[0].arc in ArcSet(t) && t[1].arc in ArcSet(t) && t[2].arc in ArcSet(t);
    assert t[3].arc in ArcSet(t) && t[4].arc in ArcSet(t) && t[5].arc in ArcSet(t);
    forall a | a in x ensures 0 <= x[a] <= INT32_MAX {
      var i :| 0 <= i < |t| && t[i].arc == a;
    }
  }

  /** Every roastery receiving a balance constraint is `r1` or `r2`, so
      balance at those two is balance everywhere. */
  lemma BalancedAtTwo(inst: Instance, a: Assignment, r1: Node, r2: Node)
    requires Admissible(inst, a)
    requires forall i | 0 <= i < |inst.toRoastery| :: inst.toRoastery[i].arc.dst == r1 || inst.toRoastery[i].arc.dst == r2
    requires BalancedAt(inst, a, r1) && BalancedAt(inst, a, r2)
    ensures Balanced(inst, a)
  {
    forall r | r in Roasteries(inst) ensures BalancedAt(inst, a, r) {
      var i :| 0 <= i < |inst.toRoastery| && Endpoint(inst.toRoastery[i].arc, Dst) == r;
    }
  }

  /** Every supplier is `s1`, `s2` or `s3`, so capacity there is capacity
      everywhere. */
  lemma WithinCapacityAtThree(inst: Instance, a: Assignment, s1: Node, s2: Node, s3: Node)
    requires Admissible(inst, a) && Builds(inst)
    requires forall i | 0 <= i < |inst.toRoastery| :: inst.toRoastery[i].arc.src == s1 || inst.toRoastery[i].arc.src == s2 || inst.toRoastery[i].arc.src == s3
    requires s1 in inst.capacity && WithinCapacityAt(inst, a, s1)
    requires s2 in inst.capacity && WithinCapacityAt(inst, a, s2)
    requires s3 in inst.capacity && WithinCapacityAt(inst, a, s3)
    ensures WithinCapacity(inst, a)
  {
    forall s | s in Suppliers(inst) ensures WithinCapacityAt(inst, a, s) {
      var i :| 0 <= i < |inst.toRoastery| && Endpoint(inst.toRoastery[i].arc, Src) == s;
    }
  }

  /** Every café is `c1`, `c2` or `c3`, so demand met there is demand met
      everywhere. */
  lemma MeetsDemandAtThree(inst: Instance, a: Assignment, c1: Node, c2: Node, c3: Node)
    requires Admissible(inst, a) && Builds(inst)
    requires forall i | 0 <= i < |inst.toCafe| :: inst.toCafe[i].arc.dst == c1 || inst.toCafe[i].arc.dst == c2 || inst.toCafe[i].arc.dst == c3
    requires c1 in inst.lightNeed && c1 in inst.darkNeed && MeetsDemandAt(inst, a, c1)
    requires c2 in inst.lightNeed && c2 in inst.darkNeed && MeetsDemandAt(inst, a, c2)
    requires c3 in inst.lightNeed && c3 in inst.darkNeed && MeetsDemandAt(inst, a, c3)
    ensures MeetsDemand(inst, a)
  {
    forall c | c in Cafes(inst) ensures MeetsDemandAt(inst, a, c) {
      var i :| 0 <= i < |inst.toCafe| && Endpoint(inst.toCafe[i].arc, Dst) == c;
    }
  }

  // ---------------------------------------------------------------------
  // The repository's instance: facts of the literal tables, each proved on
  // its own so that the proofs below use them instead of the literals
  // ---------------------------------------------------------------------

  /** The endpoints of the six supplier -> roastery arcs, in table order. */
  lemma RoasteryArcEnds()
    ensures Shop.toRoastery[0].arc.src == Shop.toRoastery[1].arc.src == "supplier1"
    ensures Shop.toRoastery[2].arc.src == Shop.toRoastery[3].arc.src == "supplier2"
    ensures Shop.toRoastery[4].arc.src == Shop.toRoastery[5].arc.src == "supplier3"
    ensures Shop.toRoastery[0].arc.dst == Shop.toRoastery[2].arc.dst == Shop.toRoastery[4].arc.dst == "roastery1"
    ensures Shop.toRoastery[1].arc.dst == Shop.toRoastery[3].arc.dst == Shop.toRoastery[5].arc.dst == "roastery2"
  {
  }

  /** The endpoints of the six roastery -> café arcs, in table order. */
  lemma CafeArcEnds()
    ensures Shop.toCafe[0].arc.src == Shop.toCafe[1].arc.src == Shop.toCafe[2].arc.src == "roastery1"
    ensures Shop.toCafe[3].arc.src == Shop.toCafe[4].arc.src == Shop.toCafe[5].arc.src == "roastery2"
    ensures Shop.toCafe[0].arc.dst == Shop.toCafe[3].arc.dst == "cafe1"
    ensures Shop.toCafe[1].arc.dst == Shop.toCafe[4].arc.dst == "cafe2"
    ensures Shop.toCafe[2].arc.dst == Shop.toCafe[5].arc.dst == "cafe3"
  {
  }

  lemma NamesDistinct()
    ensures "supplier1" != "supplier2" && "supplier1" != "supplier3" && "supplier2" != "supplier3"
    ensures "roastery1" != "roastery2"
    ensures "cafe1" != "cafe2" && "cafe1" != "cafe3" && "cafe2" != "cafe3"
  {
    assert "supplier1"[8] != "supplier2"[8] && "supplier1"[8] != "supplier3"[8] && "supplier2"[8] != "supplier3"[8];
    assert "roastery1"[8] != "roastery2"[8];
    assert "cafe1"[4] != "cafe2"[4] && "cafe1"[4] != "cafe3"[4] && "cafe2"[4] != "cafe3"[4];
  }

  lemma ShopRoasteries()
    ensures forall i | 0 <= i < |Shop.toRoastery| :: Shop.toRoastery[i].arc.dst == "roastery1" || Shop.toRoastery[i].arc.dst == "roastery2"
  {
    RoasteryArcEnds();
  }

  lemma ShopSuppliers()
    ensures forall i | 0 <= i < |Shop.toRoastery| ::
      Shop.toRoastery[i].arc.src == "supplier1" || Shop.toRoastery[i].arc.src == "supplier2" || Shop.toRoastery[i].arc.src == "supplier3"
  {
    RoasteryArcEnds();
  }

  lemma ShopCafes()
    ensures forall i | 0 <= i < |Shop.toCafe| ::
      Shop.toCafe[i].arc.dst == "cafe1" || Shop.toCafe[i].arc.dst == "cafe2" || Shop.toCafe[i].arc.dst == "cafe3"
  {
    CafeArcEnds();
  }

  lemma ShopCapacities()
    ensures Shop.capacity.Keys == {"supplier1", "supplier2", "supplier3"}
    ensures Shop.capacity["supplier1"] == 150 && Shop.capacity["supplier2"] == 50 && Shop.capacity["supplier3"] == 100
  {
  }

  lemma ShopDemands()
    ensures Shop.lightNeed.Keys == Shop.darkNeed.Keys == {"cafe1", "cafe2", "cafe3"}
    ensures Shop.lightNeed["cafe1"] == 20 && Shop.lightNeed["cafe2"] == 30 && Shop.lightNeed["cafe3"] == 40
    ensures Shop.darkNeed["cafe1"] == 20 && Shop.darkNeed["cafe2"] == 20 && Shop.darkNeed["cafe3"] == 100
  {
  }

  lemma ShopRates()
    ensures Shop.roastLight.Keys == Shop.roastDark.Keys == {"roastery1", "roastery2"}
    ensures Shop.roastLight["roastery1"] == 3 && Shop.roastLight["roastery2"] == 5
    ensures Shop.roastDark["roastery1"] == 5 && Shop.roastDark["roastery2"] == 6
  {
  }

  lemma DeliveryKeys()
    ensures Plan.delivery.Keys == {Shop.toRoastery[0].arc, Shop.toRoastery[1].arc, Shop.toRoastery[2].arc,
                                   Shop.toRoastery[3].arc, Shop.toRoastery[4].arc, Shop.toRoastery[5].arc}
  {
  }

  lemma LightKeys()
    ensures Plan.light.Keys == {Shop.toCafe[0].arc, Shop.toCafe[1].arc, Shop.toCafe[2].arc,
                                Shop.toCafe[3].arc, Shop.toCafe[4].arc, Shop.toCafe[5].arc}
  {
  }

  lemma DarkKeys()
    ensures Plan.dark.Keys == {Shop.toCafe[0].arc, Shop.toCafe[1].arc, Shop.toCafe[2].arc,
                               Shop.toCafe[3].arc, Shop.toCafe[4].arc, Shop.toCafe[5].arc}
  {
  }

  lemma DeliveryValues()
    ensures Plan.delivery[Shop.toRoastery[0].arc] == 0 && Plan.delivery[Shop.toRoastery[1].arc] == 90
    ensures Plan.delivery[Shop.toRoastery[2].arc] == 0 && Plan.delivery[Shop.toRoastery[3].arc] == 50
    ensures Plan.delivery[Shop.toRoastery[4].arc] == 90 && Plan.delivery[Shop.toRoastery[5].arc] == 0
  {
  }

  lemma LightValues()
    ensures Plan.light[Shop.toCafe[0].arc] == 20 && Plan.light[Shop.toCafe[1].arc] == 30
    ensures Plan.light[Shop.toCafe[2].arc] == 0 && Plan.light[Shop.toCafe[3].arc] == 0
    ensures Plan.light[Shop.toCafe[4].arc] == 0 && Plan.light[Shop.toCafe[5].arc] == 40
  {
  }

  lemma DarkValues()
    ensures Plan.dark[Shop.toCafe[0].arc] == 20 && Plan.dark[Shop.toCafe[1].arc] == 20
    ensures Plan.dark[Shop.toCafe[2].arc] == 0 && Plan.dark[Shop.toCafe[3].arc] == 0
    ensures Plan.dark[Shop.toCafe[4].arc] == 0 && Plan.dark[Shop.toCafe[5].arc] == 100
  {
  }

  // ---------------------------------------------------------------------
  // The repository's instance: the model builds and the plan is admissible
  // ---------------------------------------------------------------------

  lemma ShopBuilds()
    ensures Builds(Shop)
  {
    RoasteryArcEnds();
    CafeArcEnds();
    ShopCapacities();
    ShopDemands();
    ShopRates();
  }

  lemma ShopCovers()
    ensures Covers(Shop.toRoastery, Plan.delivery)
    ensures Covers(Shop.toCafe, Plan.light) && Covers(Shop.toCafe, Plan.dark)
  {
    DeliveryKeys();
    LightKeys();
    DarkKeys();
    CoversOfSix(Plan.delivery, Shop.toRoastery);
    CoversOfSix(Plan.light, Shop.toCafe);
    CoversOfSix(Plan.dark, Shop.toCafe);
  }

  lemma DeliveryInDomain()
    ensures InDomain(Plan.delivery, Shop.toRoastery)
  {
    DeliveryKeys();
    DeliveryValues();
    InDomainOfSix(Plan.delivery, Shop.toRoastery);
  }

  lemma LightInDomain()
    ensures InDomain(Plan.light, Shop.toCafe)
  {
    LightKeys();
    LightValues();
    InDomainOfSix(Plan.light, Shop.toCafe);
  }

  lemma DarkInDomain()
    ensures InDomain(Plan.dark, Shop.toCafe)
  {
    DarkKeys();
    DarkValues();
    InDomainOfSix(Plan.dark, Shop.toCafe);
  }

  lemma ShopAdmits()
    ensures Admissible(Shop, Plan)
  {
    DeliveryInDomain();
    LightInDomain();
    DarkInDomain();
  }

  // ---------------------------------------------------------------------
  // Balance at the two roasteries
  // ---------------------------------------------------------------------

  lemma Roastery1Inbound()
    requires Covers(Shop.toRoastery, Plan.delivery)
    ensures Flow(Shop.toRoastery, Plan.delivery, Dst, "roastery1") == 90
  {
    FlowOfSix(Shop.toRoastery, Plan.delivery, Dst, "roastery1");
    RoasteryArcEnds();
    NamesDistinct();
    DeliveryValues();
  }

  lemma Roastery2Inbound()
    requires Covers(Shop.toRoastery, Plan.delivery)
    ensures Flow(Shop.toRoastery, Plan.delivery, Dst, "roastery2") == 140
  {
    FlowOfSix(Shop.toRoastery, Plan.delivery, Dst, "roastery2");
    RoasteryArcEnds();
    NamesDistinct();
    DeliveryValues();
  }

  lemma Roastery1Outbound()
    requires Covers(Shop.toCafe, Plan.light) && Covers(Shop.toCafe, Plan.dark)
    ensures Flow(Shop.toCafe, Both(Plan.light, Plan.dark), Src, "roastery1") == 90
  {
    FlowOfSix(Shop.toCafe, Both(Plan.light, Plan.dark), Src, "roastery1");
    CafeArcEnds();
    NamesDistinct();
    LightValues();
    DarkValues();
  }

  lemma Roastery2Outbound()
    requires Covers(Shop.toCafe, Plan.light) && Covers(Shop.toCafe, Plan.dark)
    ensures Flow(Shop.toCafe, Both(Plan.light, Plan.dark), Src, "roastery2") == 140
  {
    FlowOfSix(Shop.toCafe, Both(Plan.light, Plan.dark), Src, "roastery2");
    CafeArcEnds();
    NamesDistinct();
    LightValues();
    DarkValues();
  }

  lemma ShopBalanced()
    requires Admissible(Shop, Plan)
    ensures Balanced(Shop, Plan)
  {
    ShopCovers();
    Roastery1Inbound();
    Roastery1Outbound();
    Roastery2Inbound();
    Roastery2Outbound();
    ShopRoasteries();
    BalancedAtTwo(Shop, Plan, "roastery1", "roastery2");
  }

  // ---------------------------------------------------------------------
  // Capacity at the three suppliers
  // ---------------------------------------------------------------------

  lemma SupplierFlows()
    requires Covers(Shop.toRoastery, Plan.delivery)
    ensures Flow(Shop.toRoastery, Plan.delivery, Src, "supplier1") == 90
    ensures Flow(Shop.toRoastery, Plan.delivery, Src, "supplier2") == 50
    ensures Flow(Shop.toRoastery, Plan.delivery, Src, "supplier3") == 90
  {
    FlowOfSix(Shop.toRoastery, Plan.delivery, Src, "supplier1");
    FlowOfSix(Shop.toRoastery, Plan.delivery, Src, "supplier2");
    FlowOfSix(Shop.toRoastery, Plan.delivery, Src, "supplier3");
    RoasteryArcEnds();
    NamesDistinct();
    DeliveryValues();
  }

  lemma ShopWithinCapacity()
    requires Builds(Shop) && Admissible(Shop, Plan)
    ensures WithinCapacity(Shop, Plan)
  {
    ShopCovers();
    SupplierFlows();
    ShopCapacities();
    ShopSuppliers();
    WithinCapacityAtThree(Shop, Plan, "supplier1", "supplier2", "supplier3");
  }

  // ---------------------------------------------------------------------
  // Demand at the three cafés
  // ---------------------------------------------------------------------

  lemma LightFlows()
    requires Covers(Shop.toCafe, Plan.light) && Covers(Shop.toCafe, Plan.dark)
    ensures Flow(Shop.toCafe, Plan.light, Dst, "cafe1") == 20
    ensures Flow(Shop.toCafe, Plan.light, Dst, "cafe2") == 30
    ensures Flow(Shop.toCafe, Plan.light, Dst, "cafe3") == 40
  {
    FlowOfSix(Shop.toCafe, Plan.light, Dst, "cafe1");
    FlowOfSix(Shop.toCafe, Plan.light, Dst, "cafe2");
    FlowOfSix(Shop.toCafe, Plan.light, Dst, "cafe3");
    CafeArcEnds();
    NamesDistinct();
    LightValues();
  }

  lemma DarkFlows()
    requires Covers(Shop.toCafe, Plan.light) && Covers(Shop.toCafe, Plan.dark)
    ensures Flow(Shop.toCafe, Plan.dark, Dst, "cafe1") == 20
    ensures Flow(Shop.toCafe, Plan.dark, Dst, "cafe2") == 20
    ensures Flow(Shop.toCafe, Plan.dark, Dst, "cafe3") == 100
  {
    FlowOfSix(Shop.toCafe, Plan.dark, Dst, "cafe1");
    FlowOfSix(Shop.toCafe, Plan.dark, Dst, "cafe2");
    FlowOfSix(Shop.toCafe, Plan.dark, Dst, "cafe3");
    CafeArcEnds();
    NamesDistinct();
    DarkValues();
  }

  lemma ShopMeetsDemand()
    requires Builds(Shop) && Admissible(Shop, Plan)
    ensures MeetsDemand(Shop, Plan)
  {
    ShopCovers();
    LightFlows();
    DarkFlows();
    ShopDemands();
    ShopCafes();
    MeetsDemandAtThree(Shop, Plan, "cafe1", "cafe2", "cafe3");
  }

  // ---------------------------------------------------------------------
  // The objective
  // ---------------------------------------------------------------------

  lemma ShopSupplierShipping()
    requires Covers(Shop.toRoastery, Plan.delivery)
    ensures SupplierShipping(Shop.toRoastery, Plan.delivery) == 690
  {
    var t := Shop.toRoastery;
    SupplierShippingOfSix(t, Plan.delivery);
    DeliveryValues();
    assert t[1].cost == 4 && t[3].cost == 3 && t[4].cost == 2;
  }

  lemma ShopCafeShipping()
    requires Covers(Shop.toCafe, Plan.light) && Covers(Shop.toCafe, Plan.dark)
    ensures CafeShipping(Shop.toCafe, Plan.light, Plan.dark) == 630
  {
    var u := Shop.toCafe;
    CafeShippingOfSix(u, Plan.light, Plan.dark);
    LightValues();
    DarkValues();
    assert u[0].cost == 5 && u[1].cost == 3 && u[5].cost == 2;
  }

  lemma ShopRoastingCost()
    requires Covers(Shop.toCafe, Plan.light) && Covers(Shop.toCafe, Plan.dark)
    requires Keyed(Shop.toCafe, Src, Shop.roastLight) && Keyed(Shop.toCafe, Src, Shop.roastDark)
    ensures Roasting(Shop.toCafe, Plan.light, Plan.dark, Shop.roastLight, Shop.roastDark) == 1150
  {
    RoastingOfSix(Shop.toCafe, Plan.light, Plan.dark, Shop.roastLight, Shop.roastDark);
    CafeArcEnds();
    LightValues();
    DarkValues();
    ShopRates();
  }

  lemma ShopPlanCost()
    requires Builds(Shop) && Admissible(Shop, Plan)
    ensures Cost(Shop, Plan) == 2470
  {
    ShopCovers();
    ShopSupplierShipping();
    ShopCafeShipping();
    ShopRoastingCost();
  }

  /** The repository's instance is feasible, so a correct solver answers it
      with an optimum; the plan above costs 2470. */
  lemma ShopIsFeasible()
    ensures Feasible(Shop, Plan)
    ensures Cost(Shop, Plan) == 2470
    ensures !Answers(Shop, Infeasible)
  {
    ShopBuilds();
    ShopAdmits();
    ShopBalanced();
    ShopWithinCapacity();
    ShopMeetsDemand();
    ShopPlanCost();
    assert Answers(Shop, Infeasible) ==> !Feasible(Shop, Plan);
  }

  // ---------------------------------------------------------------------
  // A roastery outside the balance constraints
  // ---------------------------------------------------------------------

  /** roastery2 ships to cafe1 but no supplier arc enters it, so no balance
      constraint is built for it and its shipments cost no supply. */
  const Gap: Instance := Instance(
    map["supplier1" := 0],
    [Entry(Arc("supplier1", "roastery1"), 1)],
    map["roastery1" := 1, "roastery2" := 1],
    map["roastery1" := 1, "roastery2" := 1],
    [Entry(Arc("roastery2", "cafe1"), 1)],
    map["cafe1" := 10],
    map["cafe1" := 0])

  const GapPlan: Assignment := Assignment(
    map[Arc("supplier1", "roastery1") := 0],
    map[Arc("roastery2", "cafe1") := 10],
    map[Arc("roastery2", "cafe1") := 0])

  lemma GapBuilds()
    ensures Builds(Gap)
  {
  }

  lemma GapAdmits()
    ensures Admissible(Gap, GapPlan)
  {
    assert ArcSet(Gap.toRoastery) == {Arc("supplier1", "roastery1")} by {
      assert Gap.toRoastery[0].arc in ArcSet(Gap.toRoastery);
    }
    assert ArcSet(Gap.toCafe) == {Arc("roastery2", "cafe1")} by {
      assert Gap.toCafe[0].arc in ArcSet(Gap.toCafe);
    }
  }

  lemma GapNodes()
    ensures Suppliers(Gap) == {"supplier1"} && Roasteries(Gap) == {"roastery1"} && Cafes(Gap) == {"cafe1"}
    ensures "roastery2" in Ends(Gap.toCafe, Src)
  {
    var t, u := Gap.toRoastery, Gap.toCafe;
    assert Endpoint(t[0].arc, Src) == "supplier1" && Endpoint(t[0].arc, Dst) == "roastery1";
    assert Endpoint(u[0].arc, Src) == "roastery2" && Endpoint(u[0].arc, Dst) == "cafe1";
  }

  lemma GapFlows()
    requires Covers(Gap.toRoastery, GapPlan.delivery)
    requires Covers(Gap.toCafe, GapPlan.light) && Covers(Gap.toCafe, GapPlan.dark)
    ensures Flow(Gap.toRoastery, GapPlan.delivery, Src, "supplier1") == 0
    ensures Flow(Gap.toRoastery, GapPlan.delivery, Dst, "roastery1") == 0
    ensures Flow(Gap.toCafe, Both(GapPlan.light, GapPlan.dark), Src, "roastery1") == 0
    ensures Flow(Gap.toCafe, GapPlan.light, Dst, "cafe1") == 10
    ensures Flow(Gap.toCafe, GapPlan.dark, Dst, "cafe1") == 0
  {
    var t, u := Gap.toRoastery, Gap.toCafe;
    assert t[..0] == [] && u[..0] == [];
    assert Endpoint(u[0].arc, Src) == "roastery2" && "roastery2" != "roastery1";
  }

  lemma GapFeasible()
    ensures Feasible(Gap, GapPlan)
  {
    GapBuilds();
    GapAdmits();
    GapNodes();
    GapFlows();
  }

  /** Without the hypothesis of `CapacityCoversDemand` the criterion fails:
      this instance has total capacity 0, total demand 10, and a feasible
      assignment. */
  lemma UnsuppliedRoasteryIsFree()
    ensures !(Ends(Gap.toCafe, Src) <= Roasteries(Gap))
    ensures Enumerates(["supplier1"], Suppliers(Gap)) && Enumerates(["cafe1"], Cafes(Gap))
    ensures SumMap(["supplier1"], Gap.capacity) == 0
    ensures SumMap(["cafe1"], Gap.lightNeed) + SumMap(["cafe1"], Gap.darkNeed) == 10
    ensures Feasible(Gap, GapPlan)
  {
    GapNodes();
    GapFeasible();
  }
}
