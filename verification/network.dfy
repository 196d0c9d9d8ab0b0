/** Names, arcs and edge-keyed tables of the three-tier coffee network
    (suppliers -> roasteries -> cafés). */
module Network {

  /** Suppliers, roasteries and cafés are identified by their names. */
  type Node = string

  /** An edge key `(source, destination)`. */
  datatype Arc = Arc(src: Node, dst: Node)

  /** One item of an edge-keyed cost table: the key and its unit shipping cost. */
  datatype Entry = Entry(arc: Arc, cost: int)

  /** An edge-keyed cost table: the items of a dictionary in insertion order.
      Every sum of the model iterates over such a table. */
  type Table = seq<Entry>

  /** The end of an arc by which a constraint groups its variables. */
  datatype End = Src | Dst

  function Endpoint(a: Arc, end: End): Node
  {
    match end
    case Src => a.src
    case Dst => a.dst
  }

  /** The keys of a table. */
  function ArcSet(t: Table): set<Arc>
  {
    set i | 0 <= i < |t| :: t[i].arc
  }

  /** The nodes found at one end of a table's keys: `set(i[0] for i in keys)`
      or `set(i[1] for i in keys)`. */
  function Ends(t: Table, end: End): set<Node>
  {
    set i | 0 <= i < |t| :: Endpoint(t[i].arc, end)
  }

  /** Dictionary keys are distinct. */
  predicate DistinctArcs(t: Table)
  {
    forall i, j | 0 <= i < j < |t| :: t[i].arc != t[j].arc
  }

  predicate NoDup(ns: seq<Node>)
  {
    forall i, j | 0 <= i < j < |ns| :: ns[i] != ns[j]
  }

  /** `ns` lists every element of `s` exactly once, in some order, as
      `list(set(...))` does. */
  predicate Enumerates(ns: seq<Node>, s: set<Node>)
  {
    && NoDup(ns)
    && (forall k | 0 <= k < |ns| :: ns[k] in s)
    && (forall n | n in s :: n in ns)
  }

  /** Some enumeration of a finite set of nodes. */
  ghost function Enumerate(s: set<Node>): (ns: seq<Node>)
    ensures Enumerates(ns, s)
    decreases s
  {
    if s == {} then []
    else
      var n :| n in s;
      [n] + Enumerate(s - {n})
  }

  /** How many times `n` occurs in `ns`. */
  function Occurrences(ns: seq<Node>, n: Node): nat
  {
    if ns == [] then 0
    else (if ns[0] == n then 1 else 0) + Occurrences(ns[1..], n)
  }

  lemma {:induction false} OccursOnce(ns: seq<Node>, n: Node)
    requires NoDup(ns)
    ensures Occurrences(ns, n) == (if n in ns then 1 else 0)
  {
    if ns != [] {
      assert NoDup(ns[1..]);
      OccursOnce(ns[1..], n);
      if ns[0] == n {
        assert n !in ns[1..];
      }
      assert n in ns <==> ns[0] == n || n in ns[1..];
    }
  }
}
