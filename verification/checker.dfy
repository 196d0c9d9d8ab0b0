/** Executable feasibility check and cost evaluation of an assignment,
    walking the edge-keyed tables the way the constraint builder does. */
module Checker {
  import opened Network
  import opened Sums
  import opened Coffee

  /** One filtered sum, accumulated in table order. */
  method ComputeFlow(t: Table, x: map<Arc, int>, end: End, n: Node) returns (f: int)
    requires Covers(t, x)
    ensures f == Flow(t, x, end, n)
  {
    f := 0;
    var i := 0;
    while i < |t|
      invariant 0 <= i <= |t|
      invariant f == Flow(t[..i], x, end, n)
    {
      assert t[..i + 1][..i] == t[..i];
      if Endpoint(t[i].arc, end) == n {
        f := f + x[t[i].arc];
      }
      i := i + 1;
    }
    assert t[..|t|] == t;
  }

  /** Accepts exactly the balanced assignments, checking one roastery per
      supplier -> roastery arc. */
  method CheckBalance(inst: Instance, a: Assignment) returns (ok: bool)
    requires Admissible(inst, a)
    ensures ok <==> Balanced(inst, a)
  {
    var t, u := inst.toRoastery, inst.toCafe;
    var out := Both(a.light, a.dark);
    var i := 0;
    while i < |t|
      invariant 0 <= i <= |t|
      invariant forall k | 0 <= k < i :: BalancedAt(inst, a, t[k].arc.dst)
    {
      var r := t[i].arc.dst;
      var inbound := ComputeFlow(t, a.delivery, Dst, r);
      var outbound := ComputeFlow(u, out, Src, r);
      if inbound != outbound {
        assert r in Roasteries(inst) by {
          assert Endpoint(t[i].arc, Dst) == r;
        }
        return false;
      }
      i := i + 1;
    }
    forall r | r in Roasteries(inst) ensures BalancedAt(inst, a, r) {
      var k :| 0 <= k < |t| && Endpoint(t[k].arc, Dst) == r;
    }
    return true;
  }

  /** Accepts exactly the assignments within every supplier's capacity,
      checking one supplier per supplier -> roastery arc. */
  method CheckCapacity(inst: Instance, a: Assignment) returns (ok: bool)
    requires Admissible(inst, a) && Builds(inst)
    ensures ok <==> WithinCapacity(inst, a)
  {
    var t := inst.toRoastery;
    var i := 0;
    while i < |t|
      invariant 0 <= i <= |t|
      invariant forall k | 0 <= k < i :: WithinCapacityAt(inst, a, t[k].arc.src)
    {
      var s := t[i].arc.src;
      assert s in inst.capacity by {
        assert Endpoint(t[i].arc, Src) == s;
      }
      var shipped := ComputeFlow(t, a.delivery, Src, s);
      if shipped > inst.capacity[s] {
        assert s in Suppliers(inst) by {
          assert Endpoint(t[i].arc, Src) == s;
        }
        return false;
      }
      i := i + 1;
    }
    forall s | s in Suppliers(inst) ensures WithinCapacityAt(inst, a, s) {
      var k :| 0 <= k < |t| && Endpoint(t[k].arc, Src) == s;
    }
    return true;
  }

  /** Accepts exactly the assignments meeting every café's light and dark
      demand, checking one café per roastery -> café arc. */
  method CheckDemand(inst: Instance, a: Assignment) returns (ok: bool)
    requires Admissible(inst, a) && Builds(inst)
    ensures ok <==> MeetsDemand(inst, a)
  {
    var u := inst.toCafe;
    var i := 0;
    while i < |u|
      invariant 0 <= i <= |u|
      invariant forall k | 0 <= k < i :: MeetsDemandAt(inst, a, u[k].arc.dst)
    {
      var c := u[i].arc.dst;
      assert c in inst.lightNeed && c in inst.darkNeed by {
        assert Endpoint(u[i].arc, Dst) == c;
      }
      var light := ComputeFlow(u, a.light, Dst, c);
      var dark := ComputeFlow(u, a.dark, Dst, c);
      if light < inst.lightNeed[c] || dark < inst.darkNeed[c] {
        assert c in Cafes(inst) by {
          assert Endpoint(u[i].arc, Dst) == c;
        }
        return false;
      }
      i := i + 1;
    }
    forall c | c in Cafes(inst) ensures MeetsDemandAt(inst, a, c) {
      var k :| 0 <= k < |u| && Endpoint(u[k].arc, Dst) == c;
    }
    return true;
  }

  /** Accepts exactly the feasible assignments: the model builds, every
      variable is in its domain, and every balance, capacity and demand
      constraint holds. */
  method CheckFeasible(inst: Instance, a: Assignment) returns (ok: bool)
    ensures ok <==> Feasible(inst, a)
  {
    if Check(inst) != Pass || !Admissible(inst, a) {
      return false;
    }
    ok := CheckBalance(inst, a);
    if ok {
      ok := CheckCapacity(inst, a);
    }
    if ok {
      ok := CheckDemand(inst, a);
    }
  }

  /** The supplier shipping part, accumulated in table order. */
  method EvaluateSupplierShipping(t: Table, x: map<Arc, int>) returns (cost: int)
    requires Covers(t, x)
    ensures cost == SupplierShipping(t, x)
  {
    cost := 0;
    var i := 0;
    while i < |t|
      invariant 0 <= i <= |t|
      invariant cost == SupplierShipping(t[..i], x)
    {
      assert t[..i + 1][..i] == t[..i];
      cost := cost + x[t[i].arc] * t[i].cost;
      i := i + 1;
    }
    assert t[..|t|] == t;
  }

  /** The roasting and café shipping parts, accumulated in table order. */
  method EvaluateCafeSide(u: Table, light: map<Arc, int>, dark: map<Arc, int>,
                          rateLight: map<Node, int>, rateDark: map<Node, int>)
    returns (roast: int, deliver: int)
    requires Covers(u, light) && Covers(u, dark)
    requires Keyed(u, Src, rateLight) && Keyed(u, Src, rateDark)
    ensures roast == Roasting(u, light, dark, rateLight, rateDark)
    ensures deliver == CafeShipping(u, light, dark)
  {
    roast, deliver := 0, 0;
    var i := 0;
    while i < |u|
      invariant 0 <= i <= |u|
      invariant roast == Roasting(u[..i], light, dark, rateLight, rateDark)
      invariant deliver == CafeShipping(u[..i], light, dark)
    {
      assert u[..i + 1][..i] == u[..i];
      var e := u[i];
      assert Endpoint(e.arc, Src) == e.arc.src;
      roast := roast + (rateLight[e.arc.src] * light[e.arc] + rateDark[e.arc.src] * dark[e.arc]);
      deliver := deliver + (light[e.arc] + dark[e.arc]) * e.cost;
      i := i + 1;
    }
    assert u[..|u|] == u;
  }

  /** The objective's value: supplier shipping plus roasting plus café
      shipping. */
  method EvaluateCost(inst: Instance, a: Assignment) returns (cost: int)
    requires Builds(inst) && Admissible(inst, a)
    ensures cost == Cost(inst, a)
  {
    var ship := EvaluateSupplierShipping(inst.toRoastery, a.delivery);
    var roast, deliver := EvaluateCafeSide(inst.toCafe, a.light, a.dark, inst.roastLight, inst.roastDark);
    cost := ship + roast + deliver;
  }
}
