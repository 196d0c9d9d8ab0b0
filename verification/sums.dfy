/** Filtered finite sums of flow variables over an edge-keyed table: the
    `sum(x[i] for i in table if i[k] == n)` expressions of the constraint
    builder, and the facts that let sums over nodes be regrouped into sums
    over arcs. */
module Sums {
  import opened Network

  /** Every key of `t` has a variable in `x`. */
  predicate Covers(t: Table, x: map<Arc, int>)
  {
    forall i | 0 <= i < |t| :: t[i].arc in x
  }

  /** Every node at the `end` side of `t`'s keys has a value in `m`. */
  predicate Keyed(t: Table, end: End, m: map<Node, int>)
  {
    forall i | 0 <= i < |t| :: Endpoint(t[i].arc, end) in m
  }

  predicate NonNegative(t: Table, x: map<Arc, int>)
    requires Covers(t, x)
  {
    forall i | 0 <= i < |t| :: x[t[i].arc] >= 0
  }

  /** The sum of `x` over the arcs of `t` whose `end` is `n`. */
  function Flow(t: Table, x: map<Arc, int>, end: End, n: Node): int
    requires Covers(t, x)
  {
    if t == [] then 0
    else
      var e := t[|t| - 1];
      Flow(t[..|t| - 1], x, end, n) + (if Endpoint(e.arc, end) == n then x[e.arc] else 0)
  }

  /** The sum of `x` over all arcs of `t`. */
  function Total(t: Table, x: map<Arc, int>): int
    requires Covers(t, x)
  {
    if t == [] then 0 else Total(t[..|t| - 1], x) + x[t[|t| - 1].arc]
  }

  /** Per-arc sum of two products, `light_vars[j] + dark_vars[j]`. */
  function Both(p: map<Arc, int>, q: map<Arc, int>): map<Arc, int>
  {
    map a | a in p && a in q :: p[a] + q[a]
  }

  /** The sum over the nodes of `ns` of their flows. */
  function SumFlow(ns: seq<Node>, t: Table, x: map<Arc, int>, end: End): int
    requires Covers(t, x)
  {
    if ns == [] then 0 else Flow(t, x, end, ns[0]) + SumFlow(ns[1..], t, x, end)
  }

  /** The sum over the nodes of `ns` of a node-keyed table. */
  function SumMap(ns: seq<Node>, m: map<Node, int>): int
    requires forall k | 0 <= k < |ns| :: ns[k] in m
  {
    if ns == [] then 0 else m[ns[0]] + SumMap(ns[1..], m)
  }

  /** The sum over the arcs of `t` of `x` times the rate `m` of the arc's `end` node. */
  function ScaledTotal(t: Table, x: map<Arc, int>, end: End, m: map<Node, int>): int
    requires Covers(t, x) && Keyed(t, end, m)
  {
    if t == [] then 0
    else
      var e := t[|t| - 1];
      ScaledTotal(t[..|t| - 1], x, end, m) + m[Endpoint(e.arc, end)] * x[e.arc]
  }

  /** The sum over the nodes `n` of `ns` of the rate `m[n]` times the flow at `n`. */
  function SumScaledFlow(ns: seq<Node>, m: map<Node, int>, t: Table, x: map<Arc, int>, end: End): int
    requires Covers(t, x)
    requires forall k | 0 <= k < |ns| :: ns[k] in m
  {
    if ns == [] then 0 else m[ns[0]] * Flow(t, x, end, ns[0]) + SumScaledFlow(ns[1..], m, t, x, end)
  }

  // ---------------------------------------------------------------------
  // Facts about a single filtered sum
  // ---------------------------------------------------------------------

  lemma {:induction false} FlowNonNegative(t: Table, x: map<Arc, int>, end: End, n: Node)
    requires Covers(t, x) && NonNegative(t, x)
    ensures Flow(t, x, end, n) >= 0
  {
    if t != [] {
      FlowNonNegative(t[..|t| - 1], x, end, n);
    }
  }

  /** A non-negative variable is bounded by every filtered sum it belongs to. */
  lemma {:induction false} FlowDominates(t: Table, x: map<Arc, int>, end: End, i: int)
    requires Covers(t, x) && NonNegative(t, x)
    requires 0 <= i < |t|
    ensures x[t[i].arc] <= Flow(t, x, end, Endpoint(t[i].arc, end))
  {
    var n := Endpoint(t[i].arc, end);
    if i == |t| - 1 {
      FlowNonNegative(t[..|t| - 1], x, end, n);
    } else {
      FlowDominates(t[..|t| - 1], x, end, i);
      assert x[t[|t| - 1].arc] >= 0;
    }
  }

  /** A filtered sum only reads the variables of the table's own keys. */
  lemma {:induction false} FlowFrame(t: Table, x: map<Arc, int>, y: map<Arc, int>, end: End, n: Node)
    requires Covers(t, x) && Covers(t, y)
    requires forall i | 0 <= i < |t| :: x[t[i].arc] == y[t[i].arc]
    ensures Flow(t, x, end, n) == Flow(t, y, end, n)
  {
    if t != [] {
      FlowFrame(t[..|t| - 1], x, y, end, n);
    }
  }

  /** Changing one variable by `d` changes exactly the filtered sum of its
      own `end` node, by exactly `d`: each variable is counted once. */
  lemma {:induction false} FlowBump(t: Table, x: map<Arc, int>, a: Arc, d: int, end: End, n: Node)
    requires Covers(t, x) && DistinctArcs(t)
    requires a in ArcSet(t)
    ensures Covers(t, x[a := x[a] + d])
    ensures Flow(t, x[a := x[a] + d], end, n)
         == Flow(t, x, end, n) + (if Endpoint(a, end) == n then d else 0)
  {
    var y := x[a := x[a] + d];
    var init := t[..|t| - 1];
    var e := t[|t| - 1];
    if e.arc == a {
      forall i | 0 <= i < |init|
        ensures x[init[i].arc] == y[init[i].arc]
      {
        assert init[i] == t[i];
      }
      FlowFrame(init, x, y, end, n);
    } else {
      assert a in ArcSet(init) by {
        var i :| 0 <= i < |t| && t[i].arc == a;
        assert init[i] == t[i];
      }
      FlowBump(init, x, a, d, end, n);
    }
  }

  /** The sum of two products splits into the sum of each. */
  lemma {:induction false} FlowOfBoth(t: Table, p: map<Arc, int>, q: map<Arc, int>, end: End, n: Node)
    requires Covers(t, p) && Covers(t, q)
    ensures Covers(t, Both(p, q))
    ensures Flow(t, Both(p, q), end, n) == Flow(t, p, end, n) + Flow(t, q, end, n)
  {
    if t != [] {
      FlowOfBoth(t[..|t| - 1], p, q, end, n);
    }
  }

  /** Changing one variable of the first operand of `Both` shifts the sum of
      its end node's group by the same amount. */
  lemma BothBumpLeft(t: Table, p: map<Arc, int>, q: map<Arc, int>, a: Arc, d: int, end: End, n: Node)
    requires Covers(t, p) && Covers(t, q) && DistinctArcs(t)
    requires a in ArcSet(t)
    ensures Covers(t, p[a := p[a] + d])
    ensures Flow(t, Both(p[a := p[a] + d], q), end, n)
         == Flow(t, Both(p, q), end, n) + (if Endpoint(a, end) == n then d else 0)
  {
    FlowBump(t, p, a, d, end, n);
    FlowOfBoth(t, p[a := p[a] + d], q, end, n);
    FlowOfBoth(t, p, q, end, n);
  }

  /** The same for the second operand. */
  lemma BothBumpRight(t: Table, p: map<Arc, int>, q: map<Arc, int>, a: Arc, d: int, end: End, n: Node)
    requires Covers(t, p) && Covers(t, q) && DistinctArcs(t)
    requires a in ArcSet(t)
    ensures Covers(t, q[a := q[a] + d])
    ensures Flow(t, Both(p, q[a := q[a] + d]), end, n)
         == Flow(t, Both(p, q), end, n) + (if Endpoint(a, end) == n then d else 0)
  {
    FlowBump(t, q, a, d, end, n);
    FlowOfBoth(t, p, q[a := q[a] + d], end, n);
    FlowOfBoth(t, p, q, end, n);
  }

  /** `BothBumpLeft` for every node at once. */
  lemma BothBumpLeftAll(t: Table, p: map<Arc, int>, q: map<Arc, int>, a: Arc, d: int, end: End)
    requires Covers(t, p) && Covers(t, q) && DistinctArcs(t)
    requires a in ArcSet(t)
    ensures Covers(t, p[a := p[a] + d])
    ensures forall n :: Flow(t, Both(p[a := p[a] + d], q), end, n)
                     == Flow(t, Both(p, q), end, n) + (if Endpoint(a, end) == n then d else 0)
  {
    FlowBump(t, p, a, d, end, "");
    forall n ensures Flow(t, Both(p[a := p[a] + d], q), end, n)
                  == Flow(t, Both(p, q), end, n) + (if Endpoint(a, end) == n then d else 0) {
      BothBumpLeft(t, p, q, a, d, end, n);
    }
  }

  /** `BothBumpRight` for every node at once. */
  lemma BothBumpRightAll(t: Table, p: map<Arc, int>, q: map<Arc, int>, a: Arc, d: int, end: End)
    requires Covers(t, p) && Covers(t, q) && DistinctArcs(t)
    requires a in ArcSet(t)
    ensures Covers(t, q[a := q[a] + d])
    ensures forall n :: Flow(t, Both(p, q[a := q[a] + d]), end, n)
                     == Flow(t, Both(p, q), end, n) + (if Endpoint(a, end) == n then d else 0)
  {
    FlowBump(t, q, a, d, end, "");
    forall n ensures Flow(t, Both(p, q[a := q[a] + d]), end, n)
                  == Flow(t, Both(p, q), end, n) + (if Endpoint(a, end) == n then d else 0) {
      BothBumpRight(t, p, q, a, d, end, n);
    }
  }

  /** `FlowBump` for every node at once. */
  lemma FlowBumpAll(t: Table, x: map<Arc, int>, a: Arc, d: int, end: End)
    requires Covers(t, x) && DistinctArcs(t)
    requires a in ArcSet(t)
    ensures Covers(t, x[a := x[a] + d])
    ensures forall n :: Flow(t, x[a := x[a] + d], end, n)
                     == Flow(t, x, end, n) + (if Endpoint(a, end) == n then d else 0)
  {
    FlowBump(t, x, a, d, end, "");
    forall n ensures Flow(t, x[a := x[a] + d], end, n)
                  == Flow(t, x, end, n) + (if Endpoint(a, end) == n then d else 0) {
      FlowBump(t, x, a, d, end, n);
    }
  }

  // ---------------------------------------------------------------------
  // Sums over node enumerations
  // ---------------------------------------------------------------------

  lemma {:induction false} SumFlowNoArcs(ns: seq<Node>, x: map<Arc, int>, end: End)
    ensures SumFlow(ns, [], x, end) == 0
  {
    if ns != [] {
      SumFlowNoArcs(ns[1..], x, end);
    }
  }

  /** Adding one arc to the table adds its variable once per occurrence of
      its end node among the summed nodes. */
  lemma {:induction false} SumFlowSnoc(ns: seq<Node>, t: Table, x: map<Arc, int>, end: End)
    requires Covers(t, x) && |t| > 0
    ensures SumFlow(ns, t, x, end)
         == SumFlow(ns, t[..|t| - 1], x, end)
            + Occurrences(ns, Endpoint(t[|t| - 1].arc, end)) * x[t[|t| - 1].arc]
  {
    if ns != [] {
      SumFlowSnoc(ns[1..], t, x, end);
      var p := Endpoint(t[|t| - 1].arc, end);
      var v := x[t[|t| - 1].arc];
      assert Occurrences(ns, p) * v == (if ns[0] == p then v else 0) + Occurrences(ns[1..], p) * v;
    }
  }

  /** Grouping the arcs by their `end` node and summing the groups over an
      enumeration without repeats that contains every such node gives the
      total: no arc is dropped and none is counted twice. */
  lemma {:induction false} FlowPartition(ns: seq<Node>, t: Table, x: map<Arc, int>, end: End)
    requires Covers(t, x) && NoDup(ns)
    requires forall i | 0 <= i < |t| :: Endpoint(t[i].arc, end) in ns
    ensures SumFlow(ns, t, x, end) == Total(t, x)
  {
    if t == [] {
      SumFlowNoArcs(ns, x, end);
    } else {
      FlowPartition(ns, t[..|t| - 1], x, end);
      SumFlowSnoc(ns, t, x, end);
      OccursOnce(ns, Endpoint(t[|t| - 1].arc, end));
    }
  }

  lemma {:induction false} SumScaledNoArcs(ns: seq<Node>, m: map<Node, int>, x: map<Arc, int>, end: End)
    requires forall k | 0 <= k < |ns| :: ns[k] in m
    ensures SumScaledFlow(ns, m, [], x, end) == 0
  {
    if ns != [] {
      SumScaledNoArcs(ns[1..], m, x, end);
    }
  }

  /** Adding one arc to the table adds its variable, at its end node's
      rate, when that node is among the summed nodes. */
  lemma {:induction false} SumScaledSnoc(ns: seq<Node>, m: map<Node, int>, t: Table, x: map<Arc, int>, end: End)
    requires Covers(t, x) && |t| > 0 && NoDup(ns)
    requires forall k | 0 <= k < |ns| :: ns[k] in m
    requires Endpoint(t[|t| - 1].arc, end) in m
    ensures SumScaledFlow(ns, m, t, x, end)
         == SumScaledFlow(ns, m, t[..|t| - 1], x, end)
            + (if Endpoint(t[|t| - 1].arc, end) in ns
               then m[Endpoint(t[|t| - 1].arc, end)] * x[t[|t| - 1].arc] else 0)
  {
    if ns != [] {
      assert NoDup(ns[1..]);
      SumScaledSnoc(ns[1..], m, t, x, end);
      var p := Endpoint(t[|t| - 1].arc, end);
      var f := Flow(t[..|t| - 1], x, end, ns[0]);
      if ns[0] == p {
        assert p !in ns[1..];
        assert m[p] * (f + x[t[|t| - 1].arc]) == m[p] * f + m[p] * x[t[|t| - 1].arc];
      } else {
        assert p in ns <==> p in ns[1..];
        assert Flow(t, x, end, ns[0]) == f;
      }
    }
  }

  /** Charging each node's rate on the node's grouped flow is the same as
      charging, on each arc, the rate of the arc's `end` node. */
  lemma {:induction false} ScaledPartition(ns: seq<Node>, m: map<Node, int>, t: Table, x: map<Arc, int>, end: End)
    requires Covers(t, x) && Keyed(t, end, m) && NoDup(ns)
    requires forall k | 0 <= k < |ns| :: ns[k] in m
    requires forall i | 0 <= i < |t| :: Endpoint(t[i].arc, end) in ns
    ensures SumScaledFlow(ns, m, t, x, end) == ScaledTotal(t, x, end, m)
  {
    if t == [] {
      SumScaledNoArcs(ns, m, x, end);
    } else {
      ScaledPartition(ns, m, t[..|t| - 1], x, end);
      SumScaledSnoc(ns, m, t, x, end);
    }
  }

  /** Pointwise bounds on node flows add up. */
  lemma {:induction false} SumFlowAtMost(ns: seq<Node>, t: Table, x: map<Arc, int>, end: End, m: map<Node, int>)
    requires Covers(t, x)
    requires forall k | 0 <= k < |ns| :: ns[k] in m && Flow(t, x, end, ns[k]) <= m[ns[k]]
    ensures SumFlow(ns, t, x, end) <= SumMap(ns, m)
  {
    if ns != [] {
      SumFlowAtMost(ns[1..], t, x, end, m);
    }
  }

  lemma {:induction false} SumFlowAtLeast(ns: seq<Node>, t: Table, x: map<Arc, int>, end: End, m: map<Node, int>)
    requires Covers(t, x)
    requires forall k | 0 <= k < |ns| :: ns[k] in m && m[ns[k]] <= Flow(t, x, end, ns[k])
    ensures SumMap(ns, m) <= SumFlow(ns, t, x, end)
  {
    if ns != [] {
      SumFlowAtLeast(ns[1..], t, x, end, m);
    }
  }

  /** Pointwise equal node flows have equal sums. */
  lemma {:induction false} SumFlowSame(ns: seq<Node>, t: Table, x: map<Arc, int>, e: End,
                                       u: Table, y: map<Arc, int>, f: End)
    requires Covers(t, x) && Covers(u, y)
    requires forall k | 0 <= k < |ns| :: Flow(t, x, e, ns[k]) == Flow(u, y, f, ns[k])
    ensures SumFlow(ns, t, x, e) == SumFlow(ns, u, y, f)
  {
    if ns != [] {
      SumFlowSame(ns[1..], t, x, e, u, y, f);
    }
  }

  lemma {:induction false} SumFlowOfBoth(ns: seq<Node>, t: Table, p: map<Arc, int>, q: map<Arc, int>, end: End)
    requires Covers(t, p) && Covers(t, q)
    ensures Covers(t, Both(p, q))
    ensures SumFlow(ns, t, Both(p, q), end) == SumFlow(ns, t, p, end) + SumFlow(ns, t, q, end)
  {
    if ns != [] {
      FlowOfBoth(t, p, q, end, ns[0]);
      SumFlowOfBoth(ns[1..], t, p, q, end);
    } else {
      FlowOfBoth(t, p, q, end, "");
    }
  }
}
