/**
 * The reflection agent: GENERATE drafts a tweet from the message history,
 * REFLECT critiques it, and the router after REFLECT either loops back to
 * GENERATE or ends the run. The message history grows by appending (the
 * `add_messages` reducer); the revision count and cap are read with defaults
 * 0 and 5 when missing. Both chains are oracles: functions from the message
 * history they are given to the content they answer with.
 */
module ReflectionAgent {
  import opened Wrappers
  import opened Builtins
  import opened StateGraphs

  datatype Role = Human | AI

  /** Message content: a plain string, or structured (non-string) content blocks. */
  datatype Content = Text(text: string) | Blocks

  datatype Message = Message(role: Role, content: Content)

  /** The agent's state; a missing revision count or cap is `None`. */
  datatype AgentState = AgentState(
    messages: seq<Message>,
    revisionCount: Option<int>,
    maxRevisions: Option<int>)

  /** A node's partial update: the messages it adds, and a revision count if it sets one. */
  datatype Update = Update(messages: seq<Message>, revisionCount: Option<int>)

  datatype Node = GenerateNode | ReflectNode

  /** The router's labels, "continue" and "end". */
  datatype Label = Continue | Stop

  const KEYWORDS: seq<string> := ["satisfactory", "excellent", "perfect", "great job"]

  function RevisionCount(s: AgentState): int {
    s.revisionCount.GetOr(0)
  }

  function MaxRevisions(s: AgentState): int {
    s.maxRevisions.GetOr(5)
  }

  /**
   * Merging an update: messages are appended after the existing history,
   * a revision count in the update overwrites the old one, and the cap is
   * left alone (no node writes it).
   */
  function Merge(s: AgentState, u: Update): (r: AgentState)
    ensures |r.messages| == |s.messages| + |u.messages|
    ensures r.messages[..|s.messages|] == s.messages
    ensures r.messages[|s.messages|..] == u.messages
    ensures u.revisionCount.Some? ==> r.revisionCount == u.revisionCount
    ensures u.revisionCount.None? ==> r.revisionCount == s.revisionCount
    ensures r.maxRevisions == s.maxRevisions
    ensures u == Update([], None) ==> r == s
  {
    AgentState(
      s.messages + u.messages,
      if u.revisionCount.Some? then u.revisionCount else s.revisionCount,
      s.maxRevisions)
  }

  /** The GENERATE node: the generate chain sees the whole history; the count goes up by one. */
  function Generate(s: AgentState, generateChain: seq<Message> -> Content): (u: Update)
    ensures |u.messages| == 1 && u.messages[0].role == AI
    ensures u.messages[0].content == generateChain(s.messages)
    ensures u.revisionCount == Some(RevisionCount(s) + 1)
  {
    Update([Message(AI, generateChain(s.messages))], Some(RevisionCount(s) + 1))
  }

  /** The REFLECT node: the critique comes back as a human message; the count is untouched. */
  function Reflect(s: AgentState, reflectChain: seq<Message> -> Content): (u: Update)
    ensures |u.messages| == 1 && u.messages[0].role == Human
    ensures u.messages[0].content == reflectChain(s.messages)
    ensures u.revisionCount.None?
  {
    Update([Message(Human, reflectChain(s.messages))], None)
  }

  /** Whether some keyword is a substring of `s`, checked keyword by keyword. */
  function AnyKeywordIn(s: string, keywords: seq<string>): (b: bool)
    ensures b <==> exists k :: k in keywords && Occurs(k, s)
    decreases |keywords|
  {
    if keywords == [] then false
    else Contains(s, keywords[0]) || AnyKeywordIn(s, keywords[1..])
  }

  /** The satisfaction heuristic on a critique: a keyword occurs in its lower-cased text. */
  ghost predicate Satisfies(critique: string) {
    exists k :: k in KEYWORDS && Occurs(k, Lower(critique))
  }

  /** The last message is a string critique that the heuristic accepts. */
  ghost predicate LastIsSatisfied(s: AgentState) {
    && |s.messages| > 0
    && s.messages[|s.messages| - 1].content.Text?
    && Satisfies(s.messages[|s.messages| - 1].content.text)
  }

  /** The router after REFLECT: the revision cap first, then the keyword heuristic. */
  function ShouldContinue(s: AgentState): (l: Label)
    ensures RevisionCount(s) >= MaxRevisions(s) ==> l == Stop
    ensures l == Stop <==> RevisionCount(s) >= MaxRevisions(s) || LastIsSatisfied(s)
  {
    if RevisionCount(s) >= MaxRevisions(s) then Stop
    else if |s.messages| > 0 then
      match s.messages[|s.messages| - 1].content
      case Text(t) => if AnyKeywordIn(Lower(t), KEYWORDS) then Stop else Continue
      case Blocks => Continue
    else Continue
  }

  /** The edge table: GENERATE -> REFLECT, and REFLECT -> GENERATE on "continue", END on "end". */
  function Edges(): (e: map<Node, Edge<Node, Label>>)
    ensures GenerateNode in e && ReflectNode in e
  {
    map[
      GenerateNode := Direct(To(ReflectNode)),
      ReflectNode := Branch(map[Continue := To(GenerateNode), Stop := End])
    ]
  }

  /**
   * GENERATE always leads to REFLECT; END is reached only from REFLECT on
   * "end", and GENERATE is re-entered only from REFLECT on "continue".
   */
  lemma EdgesRoute()
    ensures forall l :: Resolve(Edges()[GenerateNode], l) == Some(To(ReflectNode))
    ensures Resolve(Edges()[ReflectNode], Stop) == Some(End)
    ensures Resolve(Edges()[ReflectNode], Continue) == Some(To(GenerateNode))
    ensures forall n, l :: n in Edges() && Resolve(Edges()[n], l) == Some(End) ==> n == ReflectNode && l == Stop
    ensures forall n, l :: n in Edges() && Resolve(Edges()[n], l) == Some(To(GenerateNode))
                           ==> n == ReflectNode && l == Continue
  {
    forall n: Node, l: Label
      ensures n in Edges() && Resolve(Edges()[n], l) == Some(End) ==> n == ReflectNode && l == Stop
      ensures n in Edges() && Resolve(Edges()[n], l) == Some(To(GenerateNode)) ==> n == ReflectNode && l == Continue
    {
      match n {
        case GenerateNode =>
        case ReflectNode =>
          match l {
            case Continue =>
            case Stop =>
          }
      }
    }
  }

  /** Builds the workflow: two nodes, entry GENERATE, and the edge table above. */
  method CreateWorkflow() returns (g: GraphBuilder<Node, Label>)
    ensures fresh(g)
    ensures g.WellFormed()
    ensures g.nodes == {GenerateNode, ReflectNode}
    ensures g.entry == EntryPoint(GenerateNode)
    ensures g.edges == Edges()
  {
    g := new GraphBuilder();
    g.AddNode(GenerateNode);
    g.AddNode(ReflectNode);
    g.SetEntryPoint(GenerateNode);
    g.AddEdge(GenerateNode, To(ReflectNode));
    g.AddConditionalEdges(ReflectNode, map[Continue := To(GenerateNode), Stop := End]);
  }

  /** The message a step appended at position `at`, given the history before it. */
  ghost predicate StepMessage(
    msgs: seq<Message>, at: nat, node: Node,
    generateChain: seq<Message> -> Content, reflectChain: seq<Message> -> Content)
  {
    && at < |msgs|
    && msgs[at] == match node
                   case GenerateNode => Message(AI, generateChain(msgs[..at]))
                   case ReflectNode => Message(Human, reflectChain(msgs[..at]))
  }

  /** Strictly decreases with every step of a run. */
  function Measure(current: Target<Node>, s: AgentState): nat {
    var left := Max(0, MaxRevisions(s) - RevisionCount(s));
    match current
    case End => 0
    case To(GenerateNode) => 2 * left + 2
    case To(ReflectNode) => if RevisionCount(s) < MaxRevisions(s) then 2 * left + 3 else 1
  }

  /** Appending messages keeps each recorded step's message and the history it was made from. */
  lemma StepsSurviveAppend(
    msgs: seq<Message>, added: seq<Message>, start: nat, trace: seq<Node>,
    generateChain: seq<Message> -> Content, reflectChain: seq<Message> -> Content)
    requires forall j :: 0 <= j < |trace| ==> StepMessage(msgs, start + j, trace[j], generateChain, reflectChain)
    ensures forall j :: 0 <= j < |trace| ==> StepMessage(msgs + added, start + j, trace[j], generateChain, reflectChain)
  {
    forall j | 0 <= j < |trace|
      ensures StepMessage(msgs + added, start + j, trace[j], generateChain, reflectChain)
    {
      assert StepMessage(msgs, start + j, trace[j], generateChain, reflectChain);
      assert (msgs + added)[..start + j] == msgs[..start + j];
    }
  }

  /**
   * The state after round `g` of a run from `init` whose history is now
   * `messages`: the history up to that round's critique, the count raised
   * `g` times, the cap as it was.
   */
  function AfterRound(init: AgentState, messages: seq<Message>, g: nat): AgentState
    requires |init.messages| + 2 * g <= |messages|
  {
    AgentState(messages[..|init.messages| + 2 * g], Some(RevisionCount(init) + g), init.maxRevisions)
  }

  /** Rounds already run keep their state when the history grows. */
  lemma RoundsSurviveAppend(init: AgentState, messages: seq<Message>, added: seq<Message>, rounds: nat)
    requires |init.messages| + 2 * rounds <= |messages|
    ensures forall g :: 1 <= g <= rounds ==> AfterRound(init, messages + added, g) == AfterRound(init, messages, g)
  {
    forall g | 1 <= g <= rounds
      ensures AfterRound(init, messages + added, g) == AfterRound(init, messages, g)
    {
      assert (messages + added)[..|init.messages| + 2 * g] == messages[..|init.messages| + 2 * g];
    }
  }

  /**
   * What holds before each step of a run from `init`, with `trace` the nodes
   * run so far, `generations` the GENERATE steps among them and `current`
   * the node to run next.
   */
  ghost predicate RunInvariant(
    init: AgentState, generateChain: seq<Message> -> Content, reflectChain: seq<Message> -> Content,
    s: AgentState, current: Target<Node>, trace: seq<Node>, generations: nat)
  {
    && s.maxRevisions == init.maxRevisions
    && (current == To(GenerateNode) ==>
          |trace| == 2 * generations && (generations == 0 || RevisionCount(s) < MaxRevisions(s)))
    && (current == To(ReflectNode) ==> generations >= 1 && |trace| == 2 * generations - 1)
    && (current == End ==> generations >= 1 && |trace| == 2 * generations)
    && (generations == 0 ==> s == init)
    && (generations >= 1 ==> s.revisionCount == Some(RevisionCount(init) + generations))
    && generations <= Max(1, MaxRevisions(init) - RevisionCount(init))
    && (forall i :: 0 <= i < |trace| ==> trace[i] == NodeAt(i))
    && |s.messages| == |init.messages| + |trace|
    && s.messages[..|init.messages|] == init.messages
    && (forall j :: 0 <= j < |trace| ==>
          StepMessage(s.messages, |init.messages| + j, trace[j], generateChain, reflectChain))
    && (current == End ==> ShouldContinue(s) == Stop)
  }

  /**
   * What a run knows about its finished rounds: the state after the latest
   * one is the current state, and the router said "continue" after every
   * round that was followed by another.
   */
  ghost predicate RoundsKept(init: AgentState, s: AgentState, current: Target<Node>, generations: nat) {
    && |init.messages| + 2 * generations <= |s.messages| + 1
    && ((current == To(GenerateNode) || current == End) && generations >= 1 ==>
          |init.messages| + 2 * generations <= |s.messages| && s == AfterRound(init, s.messages, generations))
    && (forall g :: 1 <= g < generations ==> ShouldContinue(AfterRound(init, s.messages, g)) == Continue)
    && (current == To(GenerateNode) && generations >= 1 ==> ShouldContinue(s) == Continue)
  }

  /** A GENERATE step closes the round before it, which the router continued. */
  lemma GenerateKeepsRounds(init: AgentState, generateChain: seq<Message> -> Content, s: AgentState, generations: nat)
    requires RoundsKept(init, s, To(GenerateNode), generations) && |s.messages| == |init.messages| + 2 * generations
    ensures RoundsKept(init, Merge(s, Generate(s, generateChain)), To(ReflectNode), generations + 1)
  {
    var u := Generate(s, generateChain);
    RoundsSurviveAppend(init, s.messages, u.messages, generations);
  }

  /** A REFLECT step completes a round: its state is the new state, and the router is asked about it. */
  lemma ReflectKeepsRounds(init: AgentState, reflectChain: seq<Message> -> Content, s: AgentState, generations: nat)
    requires RoundsKept(init, s, To(ReflectNode), generations) && generations >= 1
    requires |s.messages| == |init.messages| + 2 * generations - 1
    requires s.revisionCount == Some(RevisionCount(init) + generations) && s.maxRevisions == init.maxRevisions
    ensures var next := Merge(s, Reflect(s, reflectChain));
            RoundsKept(init, next, if ShouldContinue(next) == Stop then End else To(GenerateNode), generations)
  {
    var u := Reflect(s, reflectChain);
    var next := Merge(s, u);
    RoundsSurviveAppend(init, s.messages, u.messages, generations - 1);
    assert next.messages[..|init.messages| + 2 * generations] == next.messages;
  }

  /** Node `i` of a run: GENERATE at even positions, REFLECT at odd ones. */
  function NodeAt(i: nat): Node {
    if i % 2 == 0 then GenerateNode else ReflectNode
  }

  /** Extending an alternating trace with the node due next keeps it alternating. */
  lemma AlternationExtends(trace: seq<Node>, node: Node)
    requires forall i :: 0 <= i < |trace| ==> trace[i] == NodeAt(i)
    requires node == NodeAt(|trace|)
    ensures forall i :: 0 <= i < |trace| + 1 ==> (trace + [node])[i] == NodeAt(i)
  {
  }

  /** A GENERATE step keeps the run invariant, moves to REFLECT and lowers the measure. */
  lemma GenerateStep(
    init: AgentState, generateChain: seq<Message> -> Content, reflectChain: seq<Message> -> Content,
    s: AgentState, trace: seq<Node>, generations: nat)
    requires RunInvariant(init, generateChain, reflectChain, s, To(GenerateNode), trace, generations)
    ensures RunInvariant(init, generateChain, reflectChain, Merge(s, Generate(s, generateChain)),
                         To(ReflectNode), trace + [GenerateNode], generations + 1)
    ensures Measure(To(ReflectNode), Merge(s, Generate(s, generateChain))) < Measure(To(GenerateNode), s)
  {
    var u := Generate(s, generateChain);
    var next := Merge(s, u);
    assert |trace| % 2 == 0;
    AlternationExtends(trace, GenerateNode);
    StepsSurviveAppend(s.messages, u.messages, |init.messages|, trace, generateChain, reflectChain);
    assert next.messages[..|s.messages|] == s.messages;
    assert next.messages[..|init.messages|] == s.messages[..|init.messages|];
    assert StepMessage(next.messages, |s.messages|, GenerateNode, generateChain, reflectChain);
    assert RevisionCount(next) == RevisionCount(s) + 1;
    if generations == 0 {
      assert RevisionCount(s) == RevisionCount(init);
    } else {
      assert RevisionCount(s) == RevisionCount(init) + generations < MaxRevisions(init);
    }
  }

  /**
   * A REFLECT step keeps the run invariant and lowers the measure. The run
   * then goes on to GENERATE on "continue", which the router only says
   * below the cap, and ends on "end".
   */
  lemma ReflectStep(
    init: AgentState, generateChain: seq<Message> -> Content, reflectChain: seq<Message> -> Content,
    s: AgentState, trace: seq<Node>, generations: nat)
    requires RunInvariant(init, generateChain, reflectChain, s, To(ReflectNode), trace, generations)
    ensures var next := Merge(s, Reflect(s, reflectChain));
            var target := if ShouldContinue(next) == Stop then End else To(GenerateNode);
            && RunInvariant(init, generateChain, reflectChain, next, target, trace + [ReflectNode], generations)
            && Measure(target, next) < Measure(To(ReflectNode), s)
  {
    var u := Reflect(s, reflectChain);
    var next := Merge(s, u);
    assert |trace| % 2 == 1;
    AlternationExtends(trace, ReflectNode);
    StepsSurviveAppend(s.messages, u.messages, |init.messages|, trace, generateChain, reflectChain);
    assert next.messages[..|s.messages|] == s.messages;
    assert next.messages[..|init.messages|] == s.messages[..|init.messages|];
    assert StepMessage(next.messages, |s.messages|, ReflectNode, generateChain, reflectChain);
    assert RevisionCount(next) == RevisionCount(s);
  }

  /**
   * A run of the compiled graph from `init`: start at GENERATE, run a node,
   * merge its update, follow the edge table, until END. It always stops;
   * it runs GENERATE at most max(1, cap - initial count) times.
   */
  method Run(init: AgentState, generateChain: seq<Message> -> Content, reflectChain: seq<Message> -> Content)
    returns (final: AgentState, trace: seq<Node>, generations: nat)
    ensures 1 <= generations <= Max(1, MaxRevisions(init) - RevisionCount(init))
    ensures |trace| == 2 * generations
    ensures forall i :: 0 <= i < |trace| ==> trace[i] == NodeAt(i)
    ensures final.revisionCount == Some(RevisionCount(init) + generations)
    ensures final.maxRevisions == init.maxRevisions
    ensures |final.messages| == |init.messages| + |trace|
    ensures final.messages[..|init.messages|] == init.messages
    ensures forall j :: 0 <= j < |trace| ==>
              StepMessage(final.messages, |init.messages| + j, trace[j], generateChain, reflectChain)
    ensures final == AfterRound(init, final.messages, generations)
    ensures forall g :: 1 <= g < generations ==> ShouldContinue(AfterRound(init, final.messages, g)) == Continue
    ensures ShouldContinue(final) == Stop
    ensures generations < MaxRevisions(init) - RevisionCount(init) ==> LastIsSatisfied(final)
  {
    var s := init;
    var current: Target<Node> := To(GenerateNode);
    trace := [];
    generations := 0;
    while current.To?
      invariant RunInvariant(init, generateChain, reflectChain, s, current, trace, generations)
      invariant RoundsKept(init, s, current, generations)
      decreases Measure(current, s)
    {
      var node := current.node;
      if node == GenerateNode {
        GenerateStep(init, generateChain, reflectChain, s, trace, generations);
        GenerateKeepsRounds(init, generateChain, s, generations);
        s := Merge(s, Generate(s, generateChain));
        generations := generations + 1;
      } else {
        var next := Merge(s, Reflect(s, reflectChain));
        ReflectStep(init, generateChain, reflectChain, s, trace, generations);
        ReflectKeepsRounds(init, reflectChain, s, generations);
        s := next;
      }
      trace := trace + [node];
      match Edges()[node] {
        case Direct(t) => current := t;
        case Branch(paths) => current := paths[ShouldContinue(s)];
      }
    }
    final := s;
  }

  /** "This is Excellent work" ends the loop below the cap: the match ignores case. */
  lemma ExcellentCritiqueStops(s: AgentState)
    requires RevisionCount(s) < MaxRevisions(s)
    requires |s.messages| > 0 && s.messages[|s.messages| - 1].content == Text("This is Excellent work")
    ensures ShouldContinue(s) == Stop
  {
    ExcellentAfterLowering();
    assert "excellent" in KEYWORDS;
    assert LastIsSatisfied(s);
  }

  /** Lower-casing the critique turns its capital E into the keyword's first letter. */
  lemma ExcellentAfterLowering()
    ensures Occurs("excellent", Lower("This is Excellent work"))
  {
    var low := Lower("This is Excellent work");
    assert low[8..17] == "excellent";
    assert OccursAt("excellent", low, 8);
  }

  /**
   * The heuristic is a plain substring test, so a critique that calls the
   * tweet "unsatisfactory" also ends the loop.
   */
  lemma NegativeCritiqueStops(s: AgentState)
    requires RevisionCount(s) < MaxRevisions(s)
    requires |s.messages| > 0 && s.messages[|s.messages| - 1].content == Text("unsatisfactory")
    ensures ShouldContinue(s) == Stop
  {
    var low := Lower("unsatisfactory");
    assert low[2..14] == "satisfactory";
    assert OccursAt("satisfactory", low, 2);
    assert "satisfactory" in KEYWORDS;
  }

  /** Below the cap, an empty history or non-string content means "continue". */
  lemma NoCritiqueContinues(s: AgentState)
    requires RevisionCount(s) < MaxRevisions(s)
    requires |s.messages| == 0 || s.messages[|s.messages| - 1].content.Blocks?
    ensures ShouldContinue(s) == Continue
  {
  }
}
