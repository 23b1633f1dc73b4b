/**
 * The reflexion agent: DRAFT_ANSWER asks the actor for an answer and search
 * queries, EXECUTE_TOOLS runs the queries, REVISE_ANSWER asks the revisor for
 * a critique, a revised answer and new queries; after each revision the
 * router either runs the new queries or ends. Every node returns the whole
 * state with some fields replaced, so merging a node's result replaces the
 * state. The actor, the search tool and the revisor are oracles.
 */
module ReflexionAgent {
  import opened Wrappers
  import opened Builtins
  import opened StateGraphs
  import ToolExecutor

  /** A list of search queries from structured output: at most three of them. */
  type QueryList = qs: seq<string> | |qs| <= 3

  /** The actor's structured output (schema AnswerQuestion). */
  datatype AnswerQuestion = AnswerQuestion(answer: string, searchQueries: QueryList)

  /** The revisor's structured output (schema ReviseAnswer). */
  datatype RevisedAnswer = RevisedAnswer(critique: string, searchQueries: QueryList, revisedAnswer: string)

  datatype GraphState = GraphState(
    question: string,
    answer: string,
    searchQueries: seq<string>,
    searchResults: string,
    critique: string,
    revisionCount: int,
    maxRevisions: int)

  datatype Node = DraftAnswerNode | ExecuteToolsNode | ReviseAnswerNode

  /** The router's labels, "execute_tools" and "end". */
  datatype Route = ToExecuteTools | Finish

  /** DRAFT_ANSWER: the actor sees only the question; the count starts again at 0. */
  function DraftAnswer(s: GraphState, actor: string -> AnswerQuestion): (r: GraphState)
    ensures r.answer == actor(s.question).answer
    ensures r.searchQueries == actor(s.question).searchQueries
    ensures r.revisionCount == 0
    ensures r.(answer := s.answer, searchQueries := s.searchQueries, revisionCount := s.revisionCount) == s
  {
    var response := actor(s.question);
    s.(answer := response.answer, searchQueries := response.searchQueries, revisionCount := 0)
  }

  /** EXECUTE_TOOLS: the aggregated results of the state's queries; nothing else changes. */
  method ExecuteTools(s: GraphState, outcomes: seq<ToolExecutor.SearchOutcome>) returns (r: GraphState)
    requires |outcomes| == |s.searchQueries|
    ensures r.searchResults == ToolExecutor.Aggregate(s.searchQueries, outcomes)
    ensures r.(searchResults := s.searchResults) == s
  {
    var searchResults := ToolExecutor.ExecuteSearches(s.searchQueries, outcomes);
    r := s.(searchResults := searchResults);
  }

  /**
   * REVISE_ANSWER: the revisor sees the question, the previous answer and the
   * search results; the count goes up by exactly one.
   */
  function ReviseAnswer(s: GraphState, revisor: (string, string, string) -> RevisedAnswer): (r: GraphState)
    ensures r.critique == revisor(s.question, s.answer, s.searchResults).critique
    ensures r.answer == revisor(s.question, s.answer, s.searchResults).revisedAnswer
    ensures r.searchQueries == revisor(s.question, s.answer, s.searchResults).searchQueries
    ensures r.revisionCount == s.revisionCount + 1
    ensures r.(critique := s.critique, answer := s.answer, searchQueries := s.searchQueries,
               revisionCount := s.revisionCount) == s
  {
    var response := revisor(s.question, s.answer, s.searchResults);
    s.(critique := response.critique, answer := response.revisedAnswer,
       searchQueries := response.searchQueries, revisionCount := s.revisionCount + 1)
  }

  /** The router after REVISE_ANSWER: the cap first, then whether queries remain. */
  function ShouldContinue(s: GraphState): (r: Route)
    ensures s.revisionCount >= s.maxRevisions ==> r == Finish
    ensures r == ToExecuteTools <==> s.revisionCount < s.maxRevisions && |s.searchQueries| > 0
  {
    if s.revisionCount >= s.maxRevisions then Finish
    else if |s.searchQueries| > 0 then ToExecuteTools
    else Finish
  }

  /** The edge table: DRAFT -> EXECUTE -> REVISE, and REVISE -> EXECUTE or END. */
  function Edges(): (e: map<Node, Edge<Node, Route>>)
    ensures DraftAnswerNode in e && ExecuteToolsNode in e && ReviseAnswerNode in e
  {
    map[
      DraftAnswerNode := Direct(To(ExecuteToolsNode)),
      ExecuteToolsNode := Direct(To(ReviseAnswerNode)),
      ReviseAnswerNode := Branch(map[ToExecuteTools := To(ExecuteToolsNode), Finish := End])
    ]
  }

  /**
   * END is reached only from REVISE_ANSWER on "end"; nothing leads back to
   * DRAFT_ANSWER; EXECUTE_TOOLS always leads to REVISE_ANSWER.
   */
  lemma EdgesRoute()
    ensures Resolve(Edges()[ReviseAnswerNode], Finish) == Some(End)
    ensures Resolve(Edges()[ReviseAnswerNode], ToExecuteTools) == Some(To(ExecuteToolsNode))
    ensures forall n, l :: n in Edges() && Resolve(Edges()[n], l) == Some(End) ==> n == ReviseAnswerNode && l == Finish
    ensures forall n, l :: n in Edges() ==> Resolve(Edges()[n], l) != Some(To(DraftAnswerNode))
    ensures forall l :: Resolve(Edges()[ExecuteToolsNode], l) == Some(To(ReviseAnswerNode))
  {
    forall n: Node, l: Route
      ensures n in Edges() && Resolve(Edges()[n], l) == Some(End) ==> n == ReviseAnswerNode && l == Finish
      ensures n in Edges() ==> Resolve(Edges()[n], l) != Some(To(DraftAnswerNode))
    {
      match n {
        case DraftAnswerNode =>
        case ExecuteToolsNode =>
        case ReviseAnswerNode =>
          match l {
            case ToExecuteTools =>
            case Finish =>
          }
      }
    }
  }

  /** Builds the graph: three nodes, entry DRAFT_ANSWER, and the edge table above. */
  method CreateGraph() returns (g: GraphBuilder<Node, Route>)
    ensures fresh(g)
    ensures g.WellFormed()
    ensures g.nodes == {DraftAnswerNode, ExecuteToolsNode, ReviseAnswerNode}
    ensures g.entry == EntryPoint(DraftAnswerNode)
    ensures g.edges == Edges()
  {
    g := new GraphBuilder();
    g.AddNode(DraftAnswerNode);
    g.AddNode(ExecuteToolsNode);
    g.AddNode(ReviseAnswerNode);
    g.SetEntryPoint(DraftAnswerNode);
    g.AddEdge(DraftAnswerNode, To(ExecuteToolsNode));
    g.AddEdge(ExecuteToolsNode, To(ReviseAnswerNode));
    g.AddConditionalEdges(ReviseAnswerNode, map[ToExecuteTools := To(ExecuteToolsNode), Finish := End]);
  }

  /**
   * The external calls of a run. `search(round, i, query)` is the outcome of
   * the `i`-th search of the `round`-th EXECUTE_TOOLS; `revisor(k, ...)` is the
   * answer of the `k`-th revisor call.
   */
  datatype Oracles = Oracles(
    actor: string -> AnswerQuestion,
    search: (nat, nat, string) -> ToolExecutor.SearchOutcome,
    revisor: (nat, string, string, string) -> RevisedAnswer)

  /** The outcomes of the `round`-th EXECUTE_TOOLS for `queries`, one search per query in order. */
  function SearchOutcomes(queries: seq<string>, o: Oracles, round: nat): (r: seq<ToolExecutor.SearchOutcome>)
    ensures |r| == |queries|
  {
    seq(|queries|, j requires 0 <= j < |queries| => o.search(round, j, queries[j]))
  }

  /** The revisor as REVISE_ANSWER sees it on its `k`-th call. */
  function RevisorCall(o: Oracles, k: nat): (string, string, string) -> RevisedAnswer {
    (q, a, r) => o.revisor(k, q, a, r)
  }

  /** The state after the `round`-th EXECUTE_TOOLS on `s`. */
  ghost function Searched(s: GraphState, o: Oracles, round: nat): GraphState {
    s.(searchResults := ToolExecutor.Aggregate(s.searchQueries, SearchOutcomes(s.searchQueries, o, round)))
  }

  /**
   * The state entering the `i`-th EXECUTE_TOOLS of a run from `init`: the
   * draft for the first, otherwise the state the previous revision left.
   */
  ghost function BeforeRound(init: GraphState, o: Oracles, i: nat): (r: GraphState)
    ensures r.question == init.question && r.maxRevisions == init.maxRevisions
    ensures r.revisionCount == i
    decreases i, 0
  {
    if i == 0 then DraftAnswer(init, o.actor) else AfterRevision(init, o, i - 1)
  }

  /**
   * The state after the `i`-th REVISE_ANSWER of a run from `init`: the
   * revisor's `i`-th answer on the results of the `i`-th searches.
   */
  ghost function AfterRevision(init: GraphState, o: Oracles, i: nat): (r: GraphState)
    ensures r.question == init.question && r.maxRevisions == init.maxRevisions
    ensures r.revisionCount == i + 1
    decreases i, 1
  {
    ReviseAnswer(Searched(BeforeRound(init, o, i), o, i), RevisorCall(o, i))
  }

  /**
   * A run's states are the ones its oracles determine: the recorded
   * revisions, and the current state before EXECUTE_TOOLS or REVISE_ANSWER.
   */
  ghost predicate Replayed(init: GraphState, o: Oracles, s: GraphState, current: Target<Node>, revised: seq<GraphState>) {
    && (forall i :: 0 <= i < |revised| ==> revised[i] == AfterRevision(init, o, i))
    && (current == To(ExecuteToolsNode) ==> s == BeforeRound(init, o, |revised|))
    && (current == To(ReviseAnswerNode) ==> s == Searched(BeforeRound(init, o, |revised|), o, |revised|))
  }

  /** The draft starts the replay: it is the state entering the first EXECUTE_TOOLS. */
  lemma ReplayDraft(init: GraphState, o: Oracles)
    ensures Replayed(init, o, DraftAnswer(init, o.actor), To(ExecuteToolsNode), [])
  {
  }

  /** EXECUTE_TOOLS, numbered by the revisions so far, gives the replayed state entering REVISE_ANSWER. */
  lemma ReplaySearch(init: GraphState, o: Oracles, s: GraphState, revised: seq<GraphState>)
    requires Replayed(init, o, s, To(ExecuteToolsNode), revised)
    ensures Replayed(init, o, Searched(s, o, |revised|), To(ReviseAnswerNode), revised)
  {
  }

  /**
   * REVISE_ANSWER, numbered by the revisions so far, gives the next recorded
   * revision, which is the state entering the next EXECUTE_TOOLS.
   */
  lemma ReplayRevise(init: GraphState, o: Oracles, s: GraphState, revised: seq<GraphState>, target: Target<Node>)
    requires Replayed(init, o, s, To(ReviseAnswerNode), revised)
    requires target != To(ReviseAnswerNode)
    ensures var next := ReviseAnswer(s, RevisorCall(o, |revised|));
            Replayed(init, o, next, target, revised + [next])
  {
    var next := ReviseAnswer(s, RevisorCall(o, |revised|));
    assert next == AfterRevision(init, o, |revised|);
    assert BeforeRound(init, o, |revised| + 1) == next;
  }

  /**
   * What a run knows about the states after its REVISE_ANSWER steps: the
   * `i`-th has count `i + 1`, the router continued after each one that was
   * followed by another, and after the latest one as long as the run goes on.
   */
  ghost predicate Recorded(revised: seq<GraphState>, current: Target<Node>, s: GraphState) {
    && (forall i :: 0 <= i < |revised| ==> revised[i].revisionCount == i + 1)
    && (forall i :: 0 <= i < |revised| - 1 ==> ShouldContinue(revised[i]) == ToExecuteTools)
    && (current.To? && current != To(DraftAnswerNode) && |revised| >= 1 ==>
          ShouldContinue(revised[|revised| - 1]) == ToExecuteTools)
    && (current == End ==> |revised| >= 1 && revised[|revised| - 1] == s)
  }

  /** A REVISE_ANSWER step records its state, and the router's answer on it picks the next target. */
  lemma RecordRevision(revised: seq<GraphState>, s: GraphState, next: GraphState)
    requires Recorded(revised, To(ReviseAnswerNode), s) && next.revisionCount == |revised| + 1
    ensures Recorded(revised + [next], if ShouldContinue(next) == ToExecuteTools then To(ExecuteToolsNode) else End, next)
  {
  }

  /** Strictly decreases with every step of a run. */
  function Measure(current: Target<Node>, s: GraphState): nat {
    var left := Max(0, s.maxRevisions - s.revisionCount);
    match current
    case End => 0
    case To(DraftAnswerNode) => 2 * Max(0, s.maxRevisions) + 3
    case To(ExecuteToolsNode) => 2 * left + 2
    case To(ReviseAnswerNode) => 2 * left + 1
  }

  /** Node `i` of a run after the draft: EXECUTE_TOOLS at odd positions, REVISE_ANSWER at even ones. */
  function NodeAt(i: nat): Node {
    if i == 0 then DraftAnswerNode else if i % 2 == 1 then ExecuteToolsNode else ReviseAnswerNode
  }

  /**
   * What holds before each step of a run from `init`, with `trace` the nodes
   * run so far, `revisions` the REVISE_ANSWER steps among them, `revised`
   * their states and `current` the node to run next.
   */
  ghost predicate RunInvariant(
    init: GraphState, s: GraphState, current: Target<Node>, trace: seq<Node>, revisions: nat, revised: seq<GraphState>)
  {
    && s.question == init.question && s.maxRevisions == init.maxRevisions
    && (current == To(DraftAnswerNode) ==> trace == [] && s == init && revisions == 0)
    && (current == To(ExecuteToolsNode) ==>
          |trace| == 1 + 2 * revisions && s.revisionCount == revisions
          && (revisions == 0 || revisions < s.maxRevisions))
    && (current == To(ReviseAnswerNode) ==>
          |trace| == 2 + 2 * revisions && s.revisionCount == revisions
          && (revisions == 0 || revisions < s.maxRevisions))
    && (current == End ==>
          |trace| == 1 + 2 * revisions && revisions >= 1 && s.revisionCount == revisions
          && ShouldContinue(s) == Finish)
    && revisions <= Max(init.maxRevisions, 1)
    && (forall i :: 0 <= i < |trace| ==> trace[i] == NodeAt(i))
    && |revised| == revisions && Recorded(revised, current, s)
  }

  /** DRAFT_ANSWER keeps the run invariant, moves to EXECUTE_TOOLS and lowers the measure. */
  lemma DraftStep(init: GraphState, actor: string -> AnswerQuestion, trace: seq<Node>, revisions: nat, revised: seq<GraphState>)
    requires RunInvariant(init, init, To(DraftAnswerNode), trace, revisions, revised)
    ensures RunInvariant(init, DraftAnswer(init, actor), To(ExecuteToolsNode), trace + [DraftAnswerNode], revisions, revised)
    ensures Measure(To(ExecuteToolsNode), DraftAnswer(init, actor)) < Measure(To(DraftAnswerNode), init)
  {
  }

  /** EXECUTE_TOOLS, which changes only the search results, keeps the run invariant and moves to REVISE_ANSWER. */
  lemma SearchStep(
    init: GraphState, s: GraphState, next: GraphState, trace: seq<Node>, revisions: nat, revised: seq<GraphState>)
    requires RunInvariant(init, s, To(ExecuteToolsNode), trace, revisions, revised)
    requires next.(searchResults := s.searchResults) == s
    ensures RunInvariant(init, next, To(ReviseAnswerNode), trace + [ExecuteToolsNode], revisions, revised)
    ensures Measure(To(ReviseAnswerNode), next) < Measure(To(ExecuteToolsNode), s)
  {
    assert |trace| % 2 == 1;
  }

  /**
   * REVISE_ANSWER, which raises the count by one, keeps the run invariant
   * and lowers the measure; the router's answer on the new state picks the
   * next target.
   */
  lemma ReviseStep(
    init: GraphState, s: GraphState, next: GraphState, trace: seq<Node>, revisions: nat, revised: seq<GraphState>)
    requires RunInvariant(init, s, To(ReviseAnswerNode), trace, revisions, revised)
    requires next.question == s.question && next.maxRevisions == s.maxRevisions
    requires next.revisionCount == s.revisionCount + 1
    ensures var target := if ShouldContinue(next) == ToExecuteTools then To(ExecuteToolsNode) else End;
            && RunInvariant(init, next, target, trace + [ReviseAnswerNode], revisions + 1, revised + [next])
            && Measure(target, next) < Measure(To(ReviseAnswerNode), s)
  {
    assert |trace| % 2 == 0;
    RecordRevision(revised, s, next);
  }

  /** What a run that reached END knows about its trace, its revisions and its final state. */
  lemma RunEnds(
    init: GraphState, o: Oracles, s: GraphState, trace: seq<Node>, revisions: nat, revised: seq<GraphState>)
    requires RunInvariant(init, s, End, trace, revisions, revised)
    requires Replayed(init, o, s, End, revised)
    ensures 1 <= revisions <= Max(init.maxRevisions, 1)
    ensures |trace| == 1 + 2 * revisions
    ensures trace[0] == DraftAnswerNode
    ensures forall i :: 1 <= i < |trace| ==> trace[i] == if i % 2 == 1 then ExecuteToolsNode else ReviseAnswerNode
    ensures s.revisionCount == revisions && ShouldContinue(s) == Finish
    ensures s.question == init.question && s.maxRevisions == init.maxRevisions
    ensures revisions < init.maxRevisions ==> s.searchQueries == []
    ensures |revised| == revisions && revised[revisions - 1] == s
    ensures forall i :: 0 <= i < revisions ==> revised[i].revisionCount == i + 1
    ensures forall i :: 0 <= i < revisions - 1 ==> ShouldContinue(revised[i]) == ToExecuteTools
    ensures forall i :: 0 <= i < revisions ==> revised[i] == AfterRevision(init, o, i)
    ensures s == AfterRevision(init, o, revisions - 1)
  {
    assert trace[0] == NodeAt(0);
    forall i | 1 <= i < |trace|
      ensures trace[i] == if i % 2 == 1 then ExecuteToolsNode else ReviseAnswerNode
    {
      assert trace[i] == NodeAt(i);
    }
  }

  /**
   * One step of a run: the node runs, its whole returned state replaces the
   * current one, and the edge table, with the router after REVISE_ANSWER,
   * gives the next target.
   */
  method Step(
    init: GraphState, o: Oracles, s: GraphState, node: Node, trace: seq<Node>, revisions: nat,
    ghost revised: seq<GraphState>)
    returns (next: GraphState, revisions': nat, ghost revised': seq<GraphState>, target: Target<Node>)
    requires RunInvariant(init, s, To(node), trace, revisions, revised)
    requires Replayed(init, o, s, To(node), revised)
    ensures RunInvariant(init, next, target, trace + [node], revisions', revised')
    ensures Replayed(init, o, next, target, revised')
    ensures Measure(target, next) < Measure(To(node), s)
  {
    revisions', revised' := revisions, revised;
    // Each node returns the whole state, so the merge replaces it.
    match node {
      case DraftAnswerNode =>
        DraftStep(init, o.actor, trace, revisions, revised);
        ReplayDraft(init, o);
        next := DraftAnswer(s, o.actor);
      case ExecuteToolsNode =>
        // The round number of this EXECUTE_TOOLS is the number of revisions so far.
        var outcomes := SearchOutcomes(s.searchQueries, o, revisions);
        next := ExecuteTools(s, outcomes);
        assert next == Searched(s, o, revisions);
        SearchStep(init, s, next, trace, revisions, revised);
        ReplaySearch(init, o, s, revised);
      case ReviseAnswerNode =>
        next := ReviseAnswer(s, RevisorCall(o, revisions));
        ReviseStep(init, s, next, trace, revisions, revised);
        ReplayRevise(init, o, s, revised, if ShouldContinue(next) == ToExecuteTools then To(ExecuteToolsNode) else End);
        revisions' := revisions + 1;
        revised' := revised + [next];
    }
    match Edges()[node]
    case Direct(t) => target := t;
    case Branch(paths) => target := paths[ShouldContinue(next)];
  }

  /**
   * A run of the compiled graph: DRAFT_ANSWER, then EXECUTE_TOOLS and
   * REVISE_ANSWER in turns until the router ends it. It always stops, and
   * REVISE_ANSWER runs between 1 and max(cap, 1) times. `revised` records
   * the state after each REVISE_ANSWER: the router continued after every one
   * but the last, and the last is the final state.
   */
  method Run(init: GraphState, o: Oracles)
    returns (final: GraphState, trace: seq<Node>, revisions: nat, ghost revised: seq<GraphState>)
    ensures 1 <= revisions <= Max(init.maxRevisions, 1)
    ensures |trace| == 1 + 2 * revisions
    ensures trace[0] == DraftAnswerNode
    ensures forall i :: 1 <= i < |trace| ==> trace[i] == if i % 2 == 1 then ExecuteToolsNode else ReviseAnswerNode
    ensures final.revisionCount == revisions
    ensures final.question == init.question && final.maxRevisions == init.maxRevisions
    ensures ShouldContinue(final) == Finish
    ensures revisions < init.maxRevisions ==> final.searchQueries == []
    ensures |revised| == revisions && revised[revisions - 1] == final
    ensures forall i :: 0 <= i < revisions ==> revised[i].revisionCount == i + 1
    ensures forall i :: 0 <= i < revisions - 1 ==> ShouldContinue(revised[i]) == ToExecuteTools
    ensures forall i :: 0 <= i < revisions ==> revised[i] == AfterRevision(init, o, i)
    ensures final == AfterRevision(init, o, revisions - 1)
  {
    var s := init;
    var current: Target<Node> := To(DraftAnswerNode);
    trace := [];
    revisions := 0;
    revised := [];
    while current.To?
      invariant RunInvariant(init, s, current, trace, revisions, revised)
      invariant Replayed(init, o, s, current, revised)
      decreases Measure(current, s)
    {
      var node := current.node;
      assert current == To(node);
      s, revisions, revised, current := Step(init, o, s, node, trace, revisions, revised);
      trace := trace + [node];
    }
    RunEnds(init, o, s, trace, revisions, revised);
    final := s;
  }
}
