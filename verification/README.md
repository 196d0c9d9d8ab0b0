# Coffee supply chain: feasibility and cost of a flow assignment

This project models the constraint model that `coffee/CoffeeCode.py` builds for a
three-tier coffee supply chain: suppliers ship raw coffee to roasteries, and
roasteries ship light and dark roast to cafés. The program hands the model to an
external CP-SAT solver. That solver is not modelled here. What is modelled is
everything the program states about a solution:

- the decision variables and their domains;
- the roastery balance, supplier capacity and café demand constraints;
- the linear cost objective;
- what an optimal answer and an infeasibility verdict must mean.

## Layout

- `network.dfy` (module `Network`): node names, arcs `(source, destination)`,
  edge-keyed cost tables, and the node sets that the program derives from the
  table keys with `set(...)`.
- `sums.dfy` (module `Sums`): the filtered sums `sum(x[i] for i in table if i[k] == n)`.
  It also proves how per-node sums regroup into per-arc totals.
- `coffee.dfy` (module `Coffee`): the instance and the assignment, the build
  check (`Check`), the predicates `Admissible`, `Balanced`, `WithinCapacity`,
  `MeetsDemand` and `Feasible`, the objective `Cost`, and the solver's
  obligations `IsOptimal` and `Answers`.
- `properties.dfy` (module `Properties`): lemmas about feasible assignments and
  about the cost.
- `checker.dfy` (module `Checker`): executable methods. One decides
  feasibility, one evaluates the cost. Both walk the tables in order and are
  proved equal to the definitions.
- `example.dfy` (module `Example`): the program's hard-coded instance with one
  feasible plan, and a small instance that shows the balance gap described below.

## Modelling decisions

- An edge-keyed dictionary such as `shipping_cost_from_supplier_to_roastery` is
  a `Table`: its items in insertion order. The variable dictionaries
  `delivery`, `light_vars` and `dark_vars` are `map<Arc, int>`. They are
  admissible when their keys are exactly the table's keys. Node-keyed
  dictionaries (capacities, roasting costs, demands) are `map<Node, int>`, and a
  name can be missing from them.
- The node lists `list(set(...))` are sets in every constraint predicate. The
  constraints form a conjunction, so the iteration order does not matter. Sums
  over nodes take any list without repeats that enumerates the set.
- The program indexes a node-keyed dictionary at several places. A missing name
  there raises a `KeyError` before the solver runs. `Check` reports the first
  failing family, in the program's order: capacities, then demands, then
  roasting costs. `Builds` is the predicate that no lookup fails. `Feasible`
  includes it, since an assignment is only judged against a model that exists.
  An instance that does not build gets no solver status at all, so `Answers`
  accepts neither `Optimal` nor `Infeasible` for it: infeasibility means the
  model was built and no assignment satisfies it.
- Integers are unbounded. Every variable is bounded by `INT32_MAX = 2^31 - 1`,
  as in its declared domain.

### A roastery without supplier arcs

The code builds balance constraints only for destinations of supplier arcs
(`coffee/CoffeeCode.py:41-45`). A roastery that ships to cafés but receives no
supplier arc therefore gets no balance constraint. Its outbound flow is
unconstrained, so its coffee needs no supply. One might expect such an instance
to be infeasible; it is not, and the model follows the code. `Example.UnsuppliedRoasteryIsFree` exhibits a feasible
assignment with total capacity 0 and total demand 10. The infeasibility
criterion (`Properties.CapacityCoversDemand`, `Properties.ShortSupplyInfeasible`)
is therefore stated under the hypothesis that every roastery shipping to a café
is a destination of some supplier arc.

## Model

| member | source | states |
|---|---|---|
| Network.Enumerate | coffee/CoffeeCode.py:41 | every finite set of node names has a list without repeats that contains exactly its elements, as `list(set(...))` produces |
| Coffee.Check | coffee/CoffeeCode.py:47-63 | ignoring the 64-bit limit on constants (see Left out), building passes exactly when every supplier has a capacity, every café a light and a dark demand, and every roastery that ships to a café a light and a dark roasting cost; a capacity failure is reported exactly when some supplier arc's source has no capacity; a demand failure exactly when all capacities are present but some café arc's destination lacks a demand; a roasting-cost failure exactly when capacities and demands are present but some café arc's source lacks a rate; so for each failure, some arc's lookup fails |
| Network.Ends | coffee/CoffeeCode.py:41-52 | definition: the set of the nodes at one end of a table's keys, `set(i[0] for i in keys)` or `set(i[1] for i in keys)` |
| Coffee.Suppliers | coffee/CoffeeCode.py:47 | definition: the sources of the supplier-to-roastery keys |
| Coffee.Roasteries | coffee/CoffeeCode.py:41 | definition: the destinations of the supplier-to-roastery keys, the roasteries that receive a balance constraint |
| Coffee.Cafes | coffee/CoffeeCode.py:52 | definition: the destinations of the roastery-to-café keys |
| Sums.Flow | coffee/CoffeeCode.py:43-58 | definition: the filtered sum `sum(x[i] for i in table if i[k] == n)` over the arcs whose given end is `n`, the left and right sides of every constraint at lines 43, 44, 49, 54 and 58 |
| Sums.Both | coffee/CoffeeCode.py:44 | definition: per arc, `light_vars[j] + dark_vars[j]` |
| Coffee.Builds | coffee/CoffeeCode.py:49-63 | definition: every supplier arc's source has a capacity (line 49), every café arc's destination a light and a dark demand (lines 54, 58), every café arc's source a light and a dark roasting cost (line 63) |
| Coffee.InDomain | coffee/CoffeeCode.py:28-38 | definition: a variable dictionary has exactly the table's keys and each value lies in [0, INT32_MAX] |
| Coffee.Admissible | coffee/CoffeeCode.py:28-38 | definition: delivery is in domain over the supplier arcs, light and dark over the café arcs |
| Coffee.BalancedAt | coffee/CoffeeCode.py:43-44 | definition: the deliveries into a roastery sum to the light plus dark shipped out of it |
| Coffee.Balanced | coffee/CoffeeCode.py:41-45 | definition: the balance holds at every destination of a supplier arc; other roasteries are unconstrained |
| Coffee.WithinCapacityAt | coffee/CoffeeCode.py:49 | definition: the deliveries out of a supplier sum to at most its capacity |
| Coffee.WithinCapacity | coffee/CoffeeCode.py:47-50 | definition: the capacity bound holds at every source of a supplier arc |
| Coffee.MeetsDemandAt | coffee/CoffeeCode.py:54-58 | definition: the light shipped into a café reaches its light demand, and the dark its dark demand |
| Coffee.MeetsDemand | coffee/CoffeeCode.py:52-59 | definition: both demand bounds hold at every destination of a café arc |
| Coffee.Feasible | coffee/CoffeeCode.py:28-59 | definition: the model builds, the assignment is admissible, and it is balanced, within capacity and meets demand |
| Coffee.SupplierShipping | coffee/CoffeeCode.py:62 | definition: the sum over supplier arcs of delivery times shipping cost |
| Coffee.Roasting | coffee/CoffeeCode.py:63 | definition: the sum over café arcs of the source's light rate times light plus its dark rate times dark |
| Coffee.CafeShipping | coffee/CoffeeCode.py:64 | definition: the sum over café arcs of light plus dark, times shipping cost |
| Coffee.Cost | coffee/CoffeeCode.py:62-64 | definition: the objective, supplier shipping plus roasting plus café shipping |
| Coffee.IsOptimal | coffee/CoffeeCode.py:66 | definition: feasible, and no feasible assignment costs less |
| Coffee.Answers | coffee/CoffeeCode.py:66-73 | definition: Optimal(a) is correct when a is optimal; Infeasible is correct when the model builds and no assignment is feasible |
| Checker.CheckFeasible | coffee/CoffeeCode.py:28-59 | returns true exactly for the feasible assignments: the model builds, every variable is in its domain, and every constraint holds |
| Checker.CheckBalance | coffee/CoffeeCode.py:41-45 | for an admissible assignment, returns true exactly when every destination roastery of a supplier arc has inbound delivery equal to outbound light plus dark |
| Checker.CheckCapacity | coffee/CoffeeCode.py:47-50 | returns true exactly when every supplier's outbound delivery is at most its capacity |
| Checker.CheckDemand | coffee/CoffeeCode.py:52-59 | returns true exactly when every café's inbound light and inbound dark each reach its demand |
| Checker.ComputeFlow | coffee/CoffeeCode.py:43 | the loop over the table returns the filtered sum of the variables whose arc has the given end node |
| Checker.EvaluateSupplierShipping | coffee/CoffeeCode.py:62 | the loop returns the sum of delivery times shipping cost over the supplier arcs |
| Checker.EvaluateCafeSide | coffee/CoffeeCode.py:63-64 | the loop returns the roasting part and the café shipping part of the objective |
| Checker.EvaluateCost | coffee/CoffeeCode.py:62-64 | the value returned is the objective of the assignment |
| Sums.FlowBump | coffee/CoffeeCode.py:43-58 | changing one variable by d changes the filtered sum of its own end node by exactly d and leaves every other node's sum unchanged |
| Sums.FlowPartition | coffee/CoffeeCode.py:41-58 | summing the per-node sums over a list without repeats that covers every end node gives the total over all arcs |
| Sums.ScaledPartition | coffee/CoffeeCode.py:63 | charging each node's rate on its grouped flow equals charging each arc at the rate of its end node |
| Sums.FlowDominates | coffee/CoffeeCode.py:49 | with non-negative variables, each variable is at most the sum of its end node's group |
| Properties.FeasibleWithinDomain | coffee/CoffeeCode.py:28-38 | in a feasible assignment every delivery, light and dark variable exists for its key and lies in [0, INT32_MAX] |
| Properties.ZeroCapacityForcesZeroFlow | coffee/CoffeeCode.py:47-50 | a supplier of capacity 0 has delivery 0 on every outbound arc |
| Properties.CapacityBoundsDeliveries | coffee/CoffeeCode.py:47-50 | total capacity over the suppliers is at least the sum of all deliveries |
| Properties.BalanceConservesTotal | coffee/CoffeeCode.py:41-45 | if every roastery shipping to a café receives a balance constraint, all deliveries sum to all light plus dark shipments |
| Properties.DemandBoundsShipments | coffee/CoffeeCode.py:52-59 | for an assignment that meets demand, total light demand plus total dark demand over the cafés is at most all light plus dark shipped |
| Properties.CapacityCoversDemand | coffee/CoffeeCode.py:41-59 | if every roastery shipping to a café receives a balance constraint, a feasible assignment implies total capacity at least total light plus dark demand |
| Properties.ShortSupplyInfeasible | coffee/CoffeeCode.py:41-59 | under the same hypothesis, capacity below demand admits no feasible assignment |
| Properties.OnlyAnswerInfeasible | coffee/CoffeeCode.py:66-73 | when the model builds and no assignment is feasible, Infeasible is a correct solver answer and the only one |
| Properties.NoAnswerWithoutBuild | coffee/CoffeeCode.py:49-63 | when a lookup fails while building, no status is a correct answer, Infeasible included, because the program raises before solving |
| Properties.RelaxationKeepsFeasible | coffee/CoffeeCode.py:47-59 | lowering demands or raising capacities keeps every feasible assignment feasible |
| Properties.LowerLightDemandRelaxes | coffee/CoffeeCode.py:54-55 | lowering a single light demand is such a relaxation |
| Properties.LowerDarkDemandRelaxes | coffee/CoffeeCode.py:58 | lowering a single dark demand is such a relaxation |
| Properties.RaiseCapacityRelaxes | coffee/CoffeeCode.py:49 | raising a single capacity is such a relaxation |
| Properties.CostIgnoresLimits | coffee/CoffeeCode.py:62-64 | the objective is the same under both instances of a relaxation, so it depends on neither capacities nor demands |
| Properties.OptimumMonotone | coffee/CoffeeCode.py:47-66 | the optimum of a relaxed instance costs no more: the minimum never decreases when a demand is raised and never increases when a capacity is raised |
| Properties.DeliveryCountedOnce | coffee/CoffeeCode.py:43-49 | a delivery variable enters exactly one supplier's capacity sum and one roastery's inbound sum, each with coefficient 1 |
| Properties.LightCountedOnce | coffee/CoffeeCode.py:44-56 | a light variable enters exactly one roastery's outbound sum and one café's light demand sum, each with coefficient 1 |
| Properties.DarkCountedOnce | coffee/CoffeeCode.py:44-59 | a dark variable enters exactly one roastery's outbound sum and one café's dark demand sum, each with coefficient 1 |
| Properties.DeliveryPartitions | coffee/CoffeeCode.py:41-50 | summed over all suppliers, and likewise over all roasteries, the per-node sums count every delivery exactly once |
| Properties.CostNonNegative | coffee/CoffeeCode.py:62-64 | with non-negative unit costs, the objective of an admissible assignment is at least 0 |
| Properties.RoastingSplits | coffee/CoffeeCode.py:63 | the roasting term is the light rate times light plus the dark rate times dark, each at the arc's source roastery |
| Properties.RoastingChargedPerRoastery | coffee/CoffeeCode.py:63 | the roasting term equals the sum over roasteries of each rate times that roastery's total outbound quantity of the product, whatever the destination café |
| Example.ShopIsFeasible | coffee/CoffeeCode.py:3-23 | the program's own instance has a feasible plan, of cost 2470, so Infeasible is not a correct answer for it |
| Example.UnsuppliedRoasteryIsFree | coffee/CoffeeCode.py:41-45 | a roastery with no supplier arc gets no balance constraint: a feasible assignment exists with total capacity 0 below total demand 10 |

## Left out

- The CP-SAT model object and the solver calls (`coffee/CoffeeCode.py:1, 25, 45, 50, 56, 59, 66, 69-70`) are a foreign library. Optimality is specified by `Coffee.IsOptimal` and `Coffee.Answers`. No search is implemented.
- Coffee.Answers: covers only the OPTIMAL and INFEASIBLE outcomes. Every variable is bounded, so the objective cannot be unbounded. Solver errors and time limits belong to the library.
- Printing of the status, objective and variable values (`coffee/CoffeeCode.py:73-85`) is console output.
- Variable names such as `delivery_{key}` only label variables inside the solver.
- The hard-coded tables (`coffee/CoffeeCode.py:3-23`) appear only as the constant `Example.Shop`.
- Coffee.Check: reports which family of lookup fails, not the missing name. The first missing capacity, and the first café with a missing demand, depend on the iteration order of a `set` (`coffee/CoffeeCode.py:47-48, 52-53`). For one café, the light demand is looked up before the dark one (lines 54, 58). The first missing roasting cost is fixed: it belongs to the first arc of the café table, in insertion order, whose source lacks a rate, with the light rate looked up before the dark one (line 63).
- Coffee.Check: capacities and demands are unbounded integers. The program hands each one to the solver as a constant in a comparison (`coffee/CoffeeCode.py:49, 54, 58`), and the solver library raises for a constant outside the signed 64-bit range, before any status exists. `Builds`, `Check` and `Answers` do not model that error: for such an instance `Check` returns `Pass` and `Answers` accepts a status. The library's bound is not part of the program's own text.
- Coffee.Cost: integers are unbounded. Any 64-bit limit the solver places on the objective is not modelled.
- Tables are sequences, so they could repeat a key, which a dictionary cannot. Only the lemmas that need distinct keys require them: `DeliveryCountedOnce`, `LightCountedOnce`, `DarkCountedOnce`, `Sums.FlowBump`, `Sums.FlowBumpAll`, `Sums.BothBumpLeft`, `Sums.BothBumpRight`, `Sums.BothBumpLeftAll` and `Sums.BothBumpRightAll`.
- Capacities, demands and unit costs may be negative, as in the program. Only `CostNonNegative` asks for non-negative unit costs.
- LP relaxation, branch-and-bound, floating-point tolerance, tie-breaking and parallel search are not part of the program.
