/**
 * The adaptive RAG workflow: a router sends the question either to the
 * vector-store retriever or straight to web search; retrieved documents are
 * graded and, if any was irrelevant, web search adds a document; an answer is
 * generated and then checked against the documents (hallucination) and the
 * question (usefulness): an ungrounded answer is regenerated, an unhelpful
 * one sends the run back to web search, a useful one ends the run.
 */
module RagGraph {
  import opened Wrappers
  import opened StateGraphs
  import opened RagState
  import RagNodes
  import GradeDocuments
  import WebSearch

  datatype Node = RetrieveNode | GradeDocumentsNode | GenerateNode | WebSearchNode

  /** The routers' answers: a node name, or one of the generation grades. */
  datatype Label = Goto(node: Node) | NotSupported | Useful | NotUseful

  /** The router's datasource names. */
  const WEBSEARCH := "websearch"
  const VECTORSTORE := "vectorstore"

  /**
   * After grading: web search when the flag is raised, generate otherwise.
   * The flag must have been set.
   */
  function DecideToGenerate(v: Snapshot): (l: Label)
    requires v.webSearch.Some?
    ensures l == Goto(WebSearchNode) <==> v.webSearch.value
    ensures l == Goto(GenerateNode) <==> !v.webSearch.value
  {
    if v.webSearch.value then Goto(WebSearchNode) else Goto(GenerateNode)
  }

  /**
   * The entry router: `router` maps the question to a datasource name. Any
   * name other than the two known ones yields no label.
   */
  function RouteQuestion(s: GraphState, router: string -> string): (l: Option<Label>)
    ensures l == Some(Goto(WebSearchNode)) <==> router(s.question) == WEBSEARCH
    ensures l == Some(Goto(RetrieveNode)) <==> router(s.question) == VECTORSTORE
    ensures l.None? <==> router(s.question) != WEBSEARCH && router(s.question) != VECTORSTORE
  {
    var datasource := router(s.question);
    if datasource == WEBSEARCH then Some(Goto(WebSearchNode))
    else if datasource == VECTORSTORE then Some(Goto(RetrieveNode))
    else None
  }

  /** The grading-model calls a generation check makes, in order. */
  datatype GraderCall =
    | HallucinationCheck(documents: seq<Document>, generation: string)
    | AnswerCheck(question: string, generation: string)

  /**
   * After generating: the hallucination grader judges the generation against
   * the documents; only a grounded generation is then judged against the
   * question. The state must hold documents and a generation.
   */
  function GradeGeneration(v: Snapshot, grounded: (seq<Document>, string) -> bool, answers: (string, string) -> bool)
    : (r: (Label, seq<GraderCall>))
    requires v.documents.Some? && v.generation.Some?
    ensures |r.1| >= 1 && r.1[0] == HallucinationCheck(v.documents.value, v.generation.value)
    ensures r.0 == NotSupported <==> !grounded(v.documents.value, v.generation.value)
    ensures r.0 == NotSupported ==> |r.1| == 1
    ensures r.0 != NotSupported ==> r.1[1..] == [AnswerCheck(v.question, v.generation.value)]
    ensures r.0 == Useful <==>
              grounded(v.documents.value, v.generation.value) && answers(v.question, v.generation.value)
    ensures r.0 == NotUseful <==>
              grounded(v.documents.value, v.generation.value) && !answers(v.question, v.generation.value)
  {
    var documents := v.documents.value;
    var generation := v.generation.value;
    var first := [HallucinationCheck(documents, generation)];
    if grounded(documents, generation) then
      var calls := first + [AnswerCheck(v.question, generation)];
      if answers(v.question, generation) then (Useful, calls) else (NotUseful, calls)
    else
      (NotSupported, first)
  }

  /** The conditional entry point's path map. */
  function EntryPaths(): (p: map<Label, Node>)
    ensures forall l :: l in p <==> l == Goto(WebSearchNode) || l == Goto(RetrieveNode)
    ensures forall l :: l in p ==> l == Goto(p[l])
  {
    map[Goto(WebSearchNode) := WebSearchNode, Goto(RetrieveNode) := RetrieveNode]
  }

  /** The edge table the workflow wires. */
  function Edges(): (e: map<Node, Edge<Node, Label>>)
    ensures RetrieveNode in e && GradeDocumentsNode in e && GenerateNode in e && WebSearchNode in e
  {
    map[
      RetrieveNode := Direct(To(GradeDocumentsNode)),
      GradeDocumentsNode := Branch(map[Goto(WebSearchNode) := To(WebSearchNode), Goto(GenerateNode) := To(GenerateNode)]),
      GenerateNode := Branch(map[NotSupported := To(GenerateNode), Useful := End, NotUseful := To(WebSearchNode)]),
      WebSearchNode := Direct(To(GenerateNode))]
  }

  /**
   * END is reached only from GENERATE on "useful"; retrieval leads to
   * grading and web search to generation; nothing leads back to retrieval;
   * "not supported" regenerates and "not useful" searches the web.
   */
  lemma EdgesRoute()
    ensures forall n, l :: n in Edges() ==> (Resolve(Edges()[n], l) == Some(End) <==> n == GenerateNode && l == Useful)
    ensures forall l :: Resolve(Edges()[RetrieveNode], l) == Some(To(GradeDocumentsNode))
    ensures forall l :: Resolve(Edges()[WebSearchNode], l) == Some(To(GenerateNode))
    ensures forall n, l :: n in Edges() ==> Resolve(Edges()[n], l) != Some(To(RetrieveNode))
    ensures Resolve(Edges()[GenerateNode], NotSupported) == Some(To(GenerateNode))
    ensures Resolve(Edges()[GenerateNode], NotUseful) == Some(To(WebSearchNode))
  {
  }

  const AllNodes: set<Node> := {RetrieveNode, GradeDocumentsNode, GenerateNode, WebSearchNode}

  /** The routed entry and the edge table mention only the four nodes. */
  lemma WorkflowDeclared()
    ensures EntryDeclared(ConditionalEntry(EntryPaths()), AllNodes)
    ensures forall n :: n in Edges() ==> n in AllNodes && EdgeDeclared(Edges()[n], AllNodes)
  {
    var e := Edges();
    forall n | n in e
      ensures n in AllNodes && EdgeDeclared(e[n], AllNodes)
    {
      match n {
        case RetrieveNode =>
        case GradeDocumentsNode =>
        case GenerateNode =>
        case WebSearchNode =>
      }
    }
  }

  /** Builds the workflow: four nodes, the routed entry point and the edge table. */
  method BuildWorkflow() returns (g: GraphBuilder<Node, Label>)
    ensures fresh(g) && g.WellFormed()
    ensures g.nodes == AllNodes
    ensures g.entry == ConditionalEntry(EntryPaths())
    ensures g.edges == Edges()
  {
    g := new GraphBuilder<Node, Label>();
    g.AddNode(RetrieveNode);
    g.AddNode(GradeDocumentsNode);
    g.AddNode(GenerateNode);
    g.AddNode(WebSearchNode);
    g.SetConditionalEntryPoint(map[Goto(WebSearchNode) := WebSearchNode, Goto(RetrieveNode) := RetrieveNode]);
    g.AddEdge(RetrieveNode, To(GradeDocumentsNode));
    g.AddConditionalEdges(GradeDocumentsNode, map[Goto(WebSearchNode) := To(WebSearchNode), Goto(GenerateNode) := To(GenerateNode)]);
    g.AddConditionalEdges(GenerateNode, map[NotSupported := To(GenerateNode), Useful := End, NotUseful := To(WebSearchNode)]);
    g.AddEdge(WebSearchNode, To(GenerateNode));
    assert g.nodes == AllNodes && g.entry == ConditionalEntry(EntryPaths()) && g.edges == Edges();
    WorkflowDeclared();
  }

  /**
   * The outside world one run consults. Calls that can repeat within a run
   * get the call's number besides the chain's real inputs, so every sequence
   * of answers is a possible run.
   */
  datatype Oracles = Oracles(
    router: string -> string,                              // question -> datasource
    retriever: string -> seq<Document>,                    // question -> documents
    relevance: (nat, string, string) -> string,            // document position, question, text -> grade
    search: (nat, string) -> seq<WebSearch.SearchResult>,  // search number, question -> results
    generator: (nat, string, seq<Document>) -> string,     // generation number, question, documents -> answer
    grounded: (nat, seq<Document>, string) -> bool,        // generation number, documents, answer -> grounded?
    answers: (nat, string, string) -> bool)                // generation number, question, answer -> useful?

  datatype Outcome =
    | Finished(state: GraphState)            // the run reached the end
    | StepLimitExceeded(state: GraphState)   // the step ceiling was hit first
    | Unroutable(datasource: string)         // the entry router named no known datasource

  /** `b` can run right after `a`: the pairs the edge table connects. */
  predicate Follows(a: Node, b: Node) {
    match a
    case RetrieveNode => b == GradeDocumentsNode
    case GradeDocumentsNode => b == WebSearchNode || b == GenerateNode
    case GenerateNode => b == GenerateNode || b == WebSearchNode
    case WebSearchNode => b == GenerateNode
  }

  /** Every consecutive pair of a trace is connected by the edge table. */
  predicate Chained(trace: seq<Node>) {
    forall i :: 0 <= i < |trace| - 1 ==> Follows(trace[i], trace[i + 1])
  }

  /** A chained trace stays chained when the node it leads to is appended. */
  lemma ChainedExtends(trace: seq<Node>, node: Node)
    requires Chained(trace)
    requires |trace| > 0 ==> Follows(trace[|trace| - 1], node)
    ensures Chained(trace + [node])
  {
    var t := trace + [node];
    forall i | 0 <= i < |t| - 1
      ensures Follows(t[i], t[i + 1])
    {
      if i < |trace| - 1 {
        assert t[i] == trace[i] && t[i + 1] == trace[i + 1];
      } else {
        assert t[i] == trace[|trace| - 1] && t[i + 1] == node;
      }
    }
  }

  /** Follows lists exactly the node pairs that some label connects in the edge table. */
  lemma FollowsIsWired(a: Node, b: Node)
    ensures Follows(a, b) <==> exists l :: Resolve(Edges()[a], l) == Some(To(b))
  {
    var e := Edges();
    if Follows(a, b) {
      match a
      case RetrieveNode => assert Resolve(e[a], Useful) == Some(To(b));
      case WebSearchNode => assert Resolve(e[a], Useful) == Some(To(b));
      case GradeDocumentsNode => assert Resolve(e[a], Goto(b)) == Some(To(b));
      case GenerateNode =>
        if b == GenerateNode {
          assert Resolve(e[a], NotSupported) == Some(To(b));
        } else {
          assert Resolve(e[a], NotUseful) == Some(To(b));
        }
    }
  }

  ghost predicate AlwaysAccepts(o: Oracles) {
    (forall k, d, g :: o.grounded(k, d, g)) && (forall k, q, g :: o.answers(k, q, g))
  }

  ghost predicate NeverGrounded(o: Oracles) {
    forall k, d, g :: !o.grounded(k, d, g)
  }

  /** Steps left to the end from `n` when every generation is accepted. */
  function StepsWhenAccepted(n: Node): nat {
    match n
    case RetrieveNode => 4
    case GradeDocumentsNode => 3
    case WebSearchNode => 2
    case GenerateNode => 1
  }

  /**
   * Runs one node on the state and merges its update. `searches` and
   * `generations` count the web searches and generations made so far; they
   * number the oracle calls. The grading and generating nodes need a
   * document list in the state.
   */
  method RunNode(s: GraphState, node: Node, o: Oracles, searches: nat, generations: nat)
    returns (next: GraphState, searches': nat, generations': nat)
    requires node == GradeDocumentsNode || node == GenerateNode ==> s.documents.Some?
    modifies if s.documents.Some? then {s.documents.value} else {}
    ensures next.question == s.question
    ensures Routable(node, SnapshotOf(next))
    ensures next.documents.Some?
    ensures next.documents == s.documents || fresh(next.documents.value)
    ensures node == RetrieveNode ==>
              fresh(next.documents.value) && next.documents.value.items == o.retriever(s.question)
              && next.webSearch == s.webSearch && next.generation == s.generation
    ensures node == GradeDocumentsNode ==>
              var grades := GradeDocuments.Grades(s.question, old(s.documents.value.items), o.relevance);
              && fresh(next.documents.value)
              && next.documents.value.items == GradeDocuments.KeepRelevant(old(s.documents.value.items), grades)
              && next.webSearch == Some(GradeDocuments.AnyRejected(grades)) && next.generation == s.generation
    ensures node == WebSearchNode ==>
              var added := WebSearch.WebDocument(o.search(searches, s.question));
              && next.webSearch == s.webSearch && next.generation == s.generation
              && (s.documents.Some? ==>
                    next.documents == s.documents
                    && next.documents.value.items == old(s.documents.value.items) + [added])
              && (s.documents.None? ==> fresh(next.documents.value) && next.documents.value.items == [added])
    ensures node == GenerateNode ==>
              && next.documents == s.documents && next.webSearch == s.webSearch
              && next.generation == Some(o.generator(generations, s.question, old(s.documents.value.items)))
    ensures node != WebSearchNode && s.documents.Some? ==> unchanged(s.documents.value)
    ensures node == WebSearchNode ==> searches' == searches + 1
    ensures node != WebSearchNode ==> searches' == searches
    ensures node == GenerateNode ==> generations' == generations + 1
    ensures node != GenerateNode ==> generations' == generations
  {
    searches', generations' := searches, generations;
    match node {
      case RetrieveNode =>
        var u := RagNodes.Retrieve(s, o.retriever);
        next := Merge(s, u);
      case GradeDocumentsNode =>
        var u;
        ghost var calls;
        u, calls := GradeDocuments.GradeDocuments(s, o.relevance);
        next := Merge(s, u);
      case WebSearchNode =>
        var u := WebSearch.WebSearch(s, q => o.search(searches, q));
        next := Merge(s, u);
        searches' := searches + 1;
      case GenerateNode =>
        var u := RagNodes.Generate(s, (q, d) => o.generator(generations, q, d));
        next := Merge(s, u);
        generations' := generations + 1;
    }
  }

  /**
   * What running `node` does to the state's values. `searches` and
   * `generations` number the search and generator calls. The grading and
   * generating nodes need documents.
   */
  ghost function NodeEffect(node: Node, v: Snapshot, o: Oracles, searches: nat, generations: nat): Snapshot
    requires node == GradeDocumentsNode || node == GenerateNode ==> v.documents.Some?
  {
    match node
    case RetrieveNode => v.(documents := Some(o.retriever(v.question)))
    case GradeDocumentsNode =>
      var grades := GradeDocuments.Grades(v.question, v.documents.value, o.relevance);
      v.(documents := Some(GradeDocuments.KeepRelevant(v.documents.value, grades)),
         webSearch := Some(GradeDocuments.AnyRejected(grades)))
    case WebSearchNode =>
      var added := WebSearch.WebDocument(o.search(searches, v.question));
      v.(documents := Some(if v.documents.Some? then v.documents.value + [added] else [added]))
    case GenerateNode => v.(generation := Some(o.generator(generations, v.question, v.documents.value)))
  }

  /**
   * A node step as the run sees it: the values change as `NodeEffect` says,
   * the document list is the old one or a new one, the old list only grows
   * and only web search changes it. This runs `RunNode` and adds nothing to
   * it: it proves that `RunNode`'s per-node contract amounts to `NodeEffect`
   * on the state's values, so that the run's proof reasons about values only
   * and stays small.
   */
  method Advance(s: GraphState, node: Node, o: Oracles, searches: nat, generations: nat)
    returns (next: GraphState, searches': nat, generations': nat)
    requires node == GradeDocumentsNode || node == GenerateNode ==> s.documents.Some?
    modifies if s.documents.Some? then {s.documents.value} else {}
    ensures SnapshotOf(next) == NodeEffect(node, old(SnapshotOf(s)), o, searches, generations)
    ensures next.question == s.question
    ensures next.documents.Some?
    ensures next.documents == s.documents || fresh(next.documents.value)
    ensures searches' == searches + (if node == WebSearchNode then 1 else 0)
    ensures generations' == generations + (if node == GenerateNode then 1 else 0)
    ensures s.documents.Some? ==> old(s.documents.value.items) <= s.documents.value.items
    ensures node != WebSearchNode && s.documents.Some? ==> unchanged(s.documents.value)
  {
    next, searches', generations' := RunNode(s, node, o, searches, generations);
  }

  /** The values a node's router needs: the flag after grading, documents and a generation after generating. */
  predicate Routable(node: Node, v: Snapshot) {
    && (node == GradeDocumentsNode ==> v.webSearch.Some?)
    && (node == GenerateNode ==> v.documents.Some? && v.generation.Some?)
  }

  /**
   * Where the run goes after `node`: the edge table's target for the label
   * the node's router gives on the merged values. `k` numbers the latest
   * generation.
   */
  function NextTarget(node: Node, v: Snapshot, o: Oracles, k: nat): (t: Target<Node>)
    requires Routable(node, v)
    ensures t.To? ==> Follows(node, t.node)
  {
    match Edges()[node]
    case Direct(t) => t
    case Branch(paths) =>
      var choice :=
        if node == GradeDocumentsNode then DecideToGenerate(v)
        else GradeGeneration(v, (d, g) => o.grounded(k, d, g), (q, g) => o.answers(k, q, g)).0;
      paths[choice]
  }

  /**
   * The routers' choices through the edge table: GRADE goes to web search
   * exactly when the flag is set; GENERATE regenerates an ungrounded answer,
   * searches the web after a grounded but unhelpful one, and ends the run
   * exactly after one both graders accept.
   */
  lemma NextTargetRoutes(node: Node, v: Snapshot, o: Oracles, k: nat)
    requires Routable(node, v)
    ensures node == RetrieveNode ==> NextTarget(node, v, o, k) == To(GradeDocumentsNode)
    ensures node == WebSearchNode ==> NextTarget(node, v, o, k) == To(GenerateNode)
    ensures node == GradeDocumentsNode ==>
              && (NextTarget(node, v, o, k) == To(WebSearchNode) <==> v.webSearch.value)
              && (NextTarget(node, v, o, k) == To(GenerateNode) <==> !v.webSearch.value)
    ensures node == GenerateNode ==>
              && (NextTarget(node, v, o, k) == To(GenerateNode) <==> !o.grounded(k, v.documents.value, v.generation.value))
              && (NextTarget(node, v, o, k) == To(WebSearchNode) <==>
                    o.grounded(k, v.documents.value, v.generation.value) && !o.answers(k, v.question, v.generation.value))
    ensures NextTarget(node, v, o, k) == End <==>
              node == GenerateNode
              && o.grounded(k, v.documents.value, v.generation.value)
              && o.answers(k, v.question, v.generation.value)
    ensures AlwaysAccepts(o) && node == GenerateNode ==> NextTarget(node, v, o, k) == End
    ensures NeverGrounded(o) ==> NextTarget(node, v, o, k).To?
  {
  }

  /** How often `n` occurs in `trace`. */
  function Occurrences(trace: seq<Node>, n: Node): nat
    decreases |trace|
  {
    if trace == [] then 0
    else Occurrences(trace[..|trace| - 1], n) + (if trace[|trace| - 1] == n then 1 else 0)
  }

  /** The number of the latest generation after `trace`. */
  function LatestGeneration(trace: seq<Node>): nat {
    var made := Occurrences(trace, GenerateNode);
    if made > 0 then made - 1 else 0
  }

  /** `after` is the effect of running `node` on `before`, once the nodes in `done` have run. */
  ghost predicate EffectAt(o: Oracles, before: Snapshot, node: Node, done: seq<Node>, after: Snapshot) {
    && (node == GradeDocumentsNode || node == GenerateNode ==> before.documents.Some?)
    && after == NodeEffect(node, before, o, Occurrences(done, WebSearchNode), Occurrences(done, GenerateNode))
  }

  /** After the nodes in `done`, ending with `node`, the router on `v` sends the run to `nextNode`. */
  ghost predicate RoutedAt(o: Oracles, node: Node, v: Snapshot, done: seq<Node>, nextNode: Node) {
    Routable(node, v) && NextTarget(node, v, o, LatestGeneration(done)) == To(nextNode)
  }

  /**
   * `snapshots[i]` holds the values after step `i` of `trace`, run from
   * `start`: each is the node's effect on the values before it, and each
   * step after the first is the target the previous router chose.
   */
  ghost predicate Replays(o: Oracles, start: Snapshot, trace: seq<Node>, snapshots: seq<Snapshot>)
    decreases |trace|
  {
    && |snapshots| == |trace|
    && (trace != [] ==>
          var n := |trace| - 1;
          && Replays(o, start, trace[..n], snapshots[..n])
          && EffectAt(o, Latest(start, snapshots[..n]), trace[n], trace[..n], snapshots[n])
          && (n > 0 ==> RoutedAt(o, trace[n - 1], snapshots[n - 1], trace[..n], trace[n])))
  }

  /** A replay extends by one step whose node the last router chose. */
  lemma ReplayStep(o: Oracles, start: Snapshot, trace: seq<Node>, snapshots: seq<Snapshot>, node: Node, next: Snapshot)
    requires Replays(o, start, trace, snapshots)
    requires EffectAt(o, Latest(start, snapshots), node, trace, next)
    requires |trace| > 0 ==> RoutedAt(o, trace[|trace| - 1], snapshots[|trace| - 1], trace, node)
    ensures Replays(o, start, trace + [node], snapshots + [next])
  {
    assert (trace + [node])[..|trace|] == trace;
    assert (snapshots + [next])[..|trace|] == snapshots;
  }

  /** Read step by step, a replay says that step `i` is the node's effect on the values before it. */
  lemma {:induction false} ReplayEffectAt(o: Oracles, start: Snapshot, trace: seq<Node>, snapshots: seq<Snapshot>, i: nat)
    requires Replays(o, start, trace, snapshots) && i < |trace|
    ensures EffectAt(o, if i == 0 then start else snapshots[i - 1], trace[i], trace[..i], snapshots[i])
    decreases |trace|
  {
    var n := |trace| - 1;
    var t, v := trace[..n], snapshots[..n];
    if i < n {
      ReplayEffectAt(o, start, t, v, i);
      assert t[..i] == trace[..i] && t[i] == trace[i] && v[i] == snapshots[i];
      assert i > 0 ==> v[i - 1] == snapshots[i - 1];
    } else {
      assert trace[..i] == t;
    }
  }

  /** Read step by step, a replay says that step `i + 1` is where the router sent the run after step `i`. */
  lemma {:induction false} ReplayRoutedAt(o: Oracles, start: Snapshot, trace: seq<Node>, snapshots: seq<Snapshot>, i: nat)
    requires Replays(o, start, trace, snapshots) && i + 1 < |trace|
    ensures RoutedAt(o, trace[i], snapshots[i], trace[..i + 1], trace[i + 1])
    decreases |trace|
  {
    var n := |trace| - 1;
    var t, v := trace[..n], snapshots[..n];
    if i + 1 < n {
      ReplayRoutedAt(o, start, t, v, i);
      assert t[..i + 1] == trace[..i + 1] && t[i] == trace[i] && t[i + 1] == trace[i + 1] && v[i] == snapshots[i];
    } else {
      assert trace[..i + 1] == t;
    }
  }

  /** The values after `trace`: the last snapshot, or the start when nothing ran. */
  function Latest(start: Snapshot, snapshots: seq<Snapshot>): Snapshot {
    if snapshots == [] then start else snapshots[|snapshots| - 1]
  }

  /**
   * What the run knows about its trace before running `current`: the first
   * step was routed, every step follows a wired edge, the ceiling is kept,
   * and the bounds under accepting or rejecting graders hold.
   */
  ghost predicate TraceFacts(route: Option<Label>, o: Oracles, limit: nat, trace: seq<Node>, current: Target<Node>) {
    && |trace| <= limit
    && (current.To? && trace == [] ==> route == Some(Goto(current.node)))
    && (|trace| > 0 ==> route == Some(Goto(trace[0])))
    && (|trace| > 0 && current.To? ==> Follows(trace[|trace| - 1], current.node))
    && Chained(trace)
    && (AlwaysAccepts(o) && current.To? ==> |trace| + StepsWhenAccepted(current.node) <= 4)
    && (NeverGrounded(o) ==> current.To?)
  }

  /** Running `node` and moving to a target that `NextTarget` allows keeps the trace facts. */
  lemma TraceStep(route: Option<Label>, o: Oracles, limit: nat, trace: seq<Node>, node: Node, target: Target<Node>)
    requires TraceFacts(route, o, limit, trace, To(node)) && |trace| < limit
    requires target.To? ==> Follows(node, target.node)
    requires node == RetrieveNode ==> target == To(GradeDocumentsNode)
    requires node == WebSearchNode ==> target == To(GenerateNode)
    requires node == GradeDocumentsNode ==> target == To(WebSearchNode) || target == To(GenerateNode)
    requires AlwaysAccepts(o) && node == GenerateNode ==> target == End
    requires NeverGrounded(o) ==> target.To?
    ensures TraceFacts(route, o, limit, trace + [node], target)
  {
    ChainedExtends(trace, node);
    assert (trace + [node])[0] == if trace == [] then node else trace[0];
  }

  /**
   * What the run knows before running `current`, on values only: the trace
   * facts, the replay of the trace from `start`, the call counters, the
   * router's choice of `current`, and documents being present where the
   * next node needs them.
   */
  ghost predicate RunFacts(
    route: Option<Label>, o: Oracles, limit: nat, start: Snapshot,
    trace: seq<Node>, snapshots: seq<Snapshot>, current: Target<Node>, searches: nat, generations: nat)
  {
    && TraceFacts(route, o, limit, trace, current)
    && (trace == [] ==> current.To?)
    && Replays(o, start, trace, snapshots)
    && searches == Occurrences(trace, WebSearchNode)
    && generations == Occurrences(trace, GenerateNode)
    && (|trace| > 0 && trace[|trace| - 1] == GenerateNode ==> generations >= 1)
    && (|trace| > 0 ==>
          && Routable(trace[|trace| - 1], snapshots[|trace| - 1])
          && NextTarget(trace[|trace| - 1], snapshots[|trace| - 1], o, LatestGeneration(trace)) == current)
    && (current == To(GradeDocumentsNode) || current == To(GenerateNode) ==> Latest(start, snapshots).documents.Some?)
  }

  /** One step of the run, on values: run `node`, record its values, move to the routed target. */
  lemma RunStep(
    route: Option<Label>, o: Oracles, limit: nat, start: Snapshot,
    trace: seq<Node>, snapshots: seq<Snapshot>, node: Node, searches: nat, generations: nat,
    next: Snapshot, searches': nat, generations': nat, target: Target<Node>)
    requires RunFacts(route, o, limit, start, trace, snapshots, To(node), searches, generations) && |trace| < limit
    requires next == NodeEffect(node, Latest(start, snapshots), o, searches, generations)
    requires searches' == searches + (if node == WebSearchNode then 1 else 0)
    requires generations' == generations + (if node == GenerateNode then 1 else 0)
    requires Routable(node, next) && target == NextTarget(node, next, o, if generations' > 0 then generations' - 1 else 0)
    ensures RunFacts(route, o, limit, start, trace + [node], snapshots + [next], target, searches', generations')
  {
    var t := trace + [node];
    assert t[..|trace|] == trace;
    assert EffectAt(o, Latest(start, snapshots), node, trace, next);
    NextTargetRoutes(node, next, o, if generations' > 0 then generations' - 1 else 0);
    TraceStep(route, o, limit, trace, node, target);
    ReplayStep(o, start, trace, snapshots, node, next);
    assert Latest(start, snapshots + [next]) == next;
  }

  /** What every run that got past the entry router knows about its trace and replay. */
  lemma RunSummary(
    route: Option<Label>, o: Oracles, limit: nat, start: Snapshot,
    trace: seq<Node>, snapshots: seq<Snapshot>, current: Target<Node>, searches: nat, generations: nat)
    requires RunFacts(route, o, limit, start, trace, snapshots, current, searches, generations)
    ensures |trace| > 0 ==> route == Some(Goto(trace[0]))
    ensures |trace| <= limit
    ensures forall i :: 0 <= i < |trace| - 1 ==> Follows(trace[i], trace[i + 1])
    ensures Replays(o, start, trace, snapshots)
    ensures generations == Occurrences(trace, GenerateNode)
  {
  }

  /** A run whose router answered "end": the last step was GENERATE, and its answer was grounded and useful. */
  lemma RunFinishes(
    route: Option<Label>, o: Oracles, limit: nat, start: Snapshot,
    trace: seq<Node>, snapshots: seq<Snapshot>, searches: nat, generations: nat)
    requires RunFacts(route, o, limit, start, trace, snapshots, End, searches, generations)
    ensures |trace| > 0 && trace[|trace| - 1] == GenerateNode && generations >= 1
    ensures var v := snapshots[|trace| - 1];
            && Routable(GenerateNode, v) && NextTarget(GenerateNode, v, o, LatestGeneration(trace)) == End
            && Latest(start, snapshots) == v
            && v.documents.Some? && v.generation.Some?
            && o.grounded(generations - 1, v.documents.value, v.generation.value)
            && o.answers(generations - 1, v.question, v.generation.value)
    ensures !NeverGrounded(o)
  {
    var n := |trace| - 1;
    NextTargetRoutes(trace[n], snapshots[n], o, LatestGeneration(trace));
  }

  /** A run stopped by the ceiling before an "end": the router still pointed at a node. */
  lemma RunStops(
    route: Option<Label>, o: Oracles, limit: nat, start: Snapshot,
    trace: seq<Node>, snapshots: seq<Snapshot>, current: Target<Node>, searches: nat, generations: nat)
    requires RunFacts(route, o, limit, start, trace, snapshots, current, searches, generations)
    requires current.To? && |trace| == limit
    ensures !(AlwaysAccepts(o) && route.Some? && limit >= 4)
    ensures |trace| > 0 ==>
              && Routable(trace[|trace| - 1], snapshots[|trace| - 1])
              && NextTarget(trace[|trace| - 1], snapshots[|trace| - 1], o, LatestGeneration(trace)).To?
  {
  }

  /**
   * One iteration of the run: run `node` on `s`, then ask its router where
   * to go on the merged values. The new values extend the replay.
   */
  method Step(
    s: GraphState, node: Node, o: Oracles, searches: nat, generations: nat,
    ghost route: Option<Label>, ghost limit: nat, ghost start: Snapshot, ghost trace: seq<Node>, ghost snapshots: seq<Snapshot>,
    ghost watched: Option<DocumentList>)
    returns (next: GraphState, searches': nat, generations': nat, target: Target<Node>)
    requires RunFacts(route, o, limit, start, trace, snapshots, To(node), searches, generations) && |trace| < limit
    requires SnapshotOf(s) == Latest(start, snapshots)
    modifies if s.documents.Some? then {s.documents.value} else {}
    ensures RunFacts(route, o, limit, start, trace + [node], snapshots + [SnapshotOf(next)], target, searches', generations')
    ensures next.question == s.question
    ensures next.documents.Some?
    ensures next.documents == s.documents || fresh(next.documents.value)
    ensures watched.Some? ==> old(watched.value.items) <= watched.value.items
    ensures watched.Some? && node != WebSearchNode ==> unchanged(watched.value)
  {
    next, searches', generations' := Advance(s, node, o, searches, generations);
    target := NextTarget(node, SnapshotOf(next), o, if generations' > 0 then generations' - 1 else 0);
    RunStep(route, o, limit, start, trace, snapshots, node, searches, generations, SnapshotOf(next), searches', generations', target);
  }

  /**
   * The superstep loop: from `current`, run nodes and follow the routers
   * until the end is reached or `limit` steps have run.
   */
  method RunFrom(
    init: GraphState, o: Oracles, limit: nat, ghost route: Option<Label>, ghost start: Snapshot, entry: Target<Node>)
    returns (s: GraphState, trace: seq<Node>, ghost snapshots: seq<Snapshot>, current: Target<Node>, searches: nat, generations: nat)
    requires RunFacts(route, o, limit, start, [], [], entry, 0, 0)
    requires SnapshotOf(init) == start
    modifies if init.documents.Some? then {init.documents.value} else {}
    ensures RunFacts(route, o, limit, start, trace, snapshots, current, searches, generations)
    ensures current.To? ==> |trace| == limit
    ensures SnapshotOf(s) == Latest(start, snapshots)
    ensures s.question == init.question
    ensures init.documents.Some? ==> old(init.documents.value.items) <= init.documents.value.items
    ensures init.documents.Some? && WebSearchNode !in trace ==> unchanged(init.documents.value)
  {
    s, trace, snapshots, current, searches, generations := init, [], [], entry, 0, 0;
    ghost var initItems := if init.documents.Some? then init.documents.value.items else [];
    while current.To? && |trace| < limit
      invariant RunFacts(route, o, limit, start, trace, snapshots, current, searches, generations)
      invariant SnapshotOf(s) == Latest(start, snapshots)
      invariant s.question == init.question
      invariant s.documents.Some? ==> s.documents == init.documents || fresh(s.documents.value)
      invariant init.documents.Some? ==> initItems <= init.documents.value.items
      invariant init.documents.Some? && WebSearchNode !in trace ==> unchanged(init.documents.value)
      decreases limit - |trace|
    {
      var node := current.node;
      assert current == To(node);
      var target;
      s, searches, generations, target := Step(s, node, o, searches, generations, route, limit, start, trace, snapshots, init.documents);
      trace := trace + [node];
      snapshots := snapshots + [SnapshotOf(s)];
      current := target;
    }
  }

  /**
   * One run of the compiled workflow from `init`, with at most `limit` node
   * steps. Each step runs the current node, merges its update and follows
   * the wired edge table. Nodes that receive the state's document list may
   * extend it in place, so the method may change the initial list.
   * `snapshots` records the state's values after each step.
   */
  method Run(init: GraphState, o: Oracles, limit: nat)
    returns (outcome: Outcome, trace: seq<Node>, generations: nat, ghost snapshots: seq<Snapshot>)
    modifies if init.documents.Some? then {init.documents.value} else {}
    ensures outcome.Unroutable? <==> RouteQuestion(init, o.router).None?
    ensures outcome.Unroutable? ==> trace == [] && outcome.datasource == o.router(init.question)
    ensures |trace| > 0 ==> RouteQuestion(init, o.router) == Some(Goto(trace[0]))
    ensures |trace| <= limit
    ensures forall i :: 0 <= i < |trace| - 1 ==> Follows(trace[i], trace[i + 1])
    ensures Replays(o, old(SnapshotOf(init)), trace, snapshots)
    ensures generations == Occurrences(trace, GenerateNode)
    ensures outcome.StepLimitExceeded? ==>
              && |trace| == limit && SnapshotOf(outcome.state) == Latest(old(SnapshotOf(init)), snapshots)
              && (|trace| > 0 ==>
                    && Routable(trace[|trace| - 1], snapshots[|trace| - 1])
                    && NextTarget(trace[|trace| - 1], snapshots[|trace| - 1], o, LatestGeneration(trace)).To?)
    ensures outcome.Finished? ==>
              && |trace| > 0 && SnapshotOf(outcome.state) == snapshots[|trace| - 1]
              && Routable(trace[|trace| - 1], snapshots[|trace| - 1])
              && NextTarget(trace[|trace| - 1], snapshots[|trace| - 1], o, LatestGeneration(trace)) == End
    ensures outcome.Finished? ==>
              |trace| > 0 && trace[|trace| - 1] == GenerateNode && generations >= 1
              && outcome.state.question == init.question
              && outcome.state.documents.Some? && outcome.state.generation.Some?
              && o.grounded(generations - 1, outcome.state.documents.value.items, outcome.state.generation.value)
              && o.answers(generations - 1, outcome.state.question, outcome.state.generation.value)
    ensures AlwaysAccepts(o) && RouteQuestion(init, o.router).Some? && limit >= 4 ==> outcome.Finished?
    ensures NeverGrounded(o) ==> !outcome.Finished?
    ensures init.documents.Some? ==> old(init.documents.value.items) <= init.documents.value.items
    ensures init.documents.Some? && WebSearchNode !in trace ==> unchanged(init.documents.value)
  {
    ghost var start := SnapshotOf(init);
    var route := RouteQuestion(init, o.router);
    trace := [];
    generations := 0;
    snapshots := [];
    if route.None? {
      outcome := Unroutable(o.router(init.question));
      return;
    }
    var s, current, searches;
    s, trace, snapshots, current, searches, generations :=
      RunFrom(init, o, limit, route, start, To(EntryPaths()[route.value]));
    RunSummary(route, o, limit, start, trace, snapshots, current, searches, generations);
    if current.To? {
      RunStops(route, o, limit, start, trace, snapshots, current, searches, generations);
      outcome := StepLimitExceeded(s);
    } else {
      RunFinishes(route, o, limit, start, trace, snapshots, searches, generations);
      outcome := Finished(s);
    }
  }
}
