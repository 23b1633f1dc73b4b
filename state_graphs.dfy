/**
 * The part of a graph builder that the three workflows use: a set of named
 * nodes, an entry (fixed, or chosen by a router's choice), and for each node
 * either one fixed successor or a table from a router's labels to successors.
 * `End` is the terminal target.
 */
module StateGraphs {
  import opened Wrappers

  datatype Target<N> = To(node: N) | End

  datatype Edge<N, L> =
    | Direct(target: Target<N>)
    | Branch(paths: map<L, Target<N>>)

  datatype Entry<N, L> =
    | NoEntry
    | EntryPoint(node: N)
    | ConditionalEntry(paths: map<L, N>)

  /** The successor an edge gives for a router choice; a fixed edge ignores the choice. */
  function Resolve<N, L(==)>(e: Edge<N, L>, choice: L): (t: Option<Target<N>>)
    ensures e.Direct? ==> t == Some(e.target)
    ensures e.Branch? ==> (t.Some? <==> choice in e.paths)
    ensures e.Branch? && choice in e.paths ==> t.value == e.paths[choice]
  {
    match e
    case Direct(target) => Some(target)
    case Branch(paths) => if choice in paths then Some(paths[choice]) else None
  }

  predicate TargetDeclared<N>(t: Target<N>, nodes: set<N>) {
    t.To? ==> t.node in nodes
  }

  predicate EdgeDeclared<N, L>(e: Edge<N, L>, nodes: set<N>) {
    match e
    case Direct(t) => TargetDeclared(t, nodes)
    case Branch(paths) => forall l :: l in paths ==> TargetDeclared(paths[l], nodes)
  }

  predicate EntryDeclared<N, L>(e: Entry<N, L>, nodes: set<N>) {
    match e
    case NoEntry => false
    case EntryPoint(n) => n in nodes
    case ConditionalEntry(paths) => forall l :: l in paths ==> paths[l] in nodes
  }

  /** A graph builder that graph-construction code mutates one call at a time. */
  class GraphBuilder<N(==), L(==)> {
    var nodes: set<N>
    var entry: Entry<N, L>
    var edges: map<N, Edge<N, L>>

    /** Every name the entry and the edges mention is a declared node. */
    predicate WellFormed()
      reads this
    {
      && EntryDeclared(entry, nodes)
      && forall n :: n in edges ==> n in nodes && EdgeDeclared(edges[n], nodes)
    }

    constructor ()
      ensures nodes == {} && entry == NoEntry && edges == map[]
    {
      nodes := {};
      entry := NoEntry;
      edges := map[];
    }

    method AddNode(n: N)
      requires n !in nodes
      modifies this
      ensures nodes == old(nodes) + {n}
      ensures entry == old(entry) && edges == old(edges)
    {
      nodes := nodes + {n};
    }

    method SetEntryPoint(n: N)
      modifies this
      ensures entry == EntryPoint(n)
      ensures nodes == old(nodes) && edges == old(edges)
    {
      entry := EntryPoint(n);
    }

    method SetConditionalEntryPoint(paths: map<L, N>)
      modifies this
      ensures entry == ConditionalEntry(paths)
      ensures nodes == old(nodes) && edges == old(edges)
    {
      entry := ConditionalEntry(paths);
    }

    method AddEdge(source: N, target: Target<N>)
      requires source !in edges
      modifies this
      ensures edges == old(edges)[source := Direct(target)]
      ensures nodes == old(nodes) && entry == old(entry)
    {
      edges := edges[source := Direct(target)];
    }

    method AddConditionalEdges(source: N, paths: map<L, Target<N>>)
      requires source !in edges
      modifies this
      ensures edges == old(edges)[source := Branch(paths)]
      ensures nodes == old(nodes) && entry == old(entry)
    {
      edges := edges[source := Branch(paths)];
    }
  }
}
