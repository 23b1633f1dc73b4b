# Three LangGraph agent workflows, modelled in Dafny

This project models the three agent graphs of a LangGraph course repository.
Each graph is a state machine: a node reads the state and returns an update,
and an edge table chooses the next node, sometimes through a router function.

- **Reflection agent** (`reflection_agent.dfy`). GENERATE writes a tweet and
  REFLECT critiques it, in turns. The loop ends when the revision count reaches
  its cap (5 by default) or when the last critique contains a satisfaction
  keyword. Messages are appended with the `add_messages` reducer.
- **Reflexion agent** (`reflexion_graph.dfy`, `tool_executor.dfy`).
  DRAFT_ANSWER asks the actor for an answer and up to three search queries.
  EXECUTE_TOOLS runs the queries and formats the results as text.
  REVISE_ANSWER asks the revisor for a critique, a revised answer and new
  queries. The run loops back to EXECUTE_TOOLS while queries remain and the
  revision cap is not reached.
- **Adaptive RAG** (`rag_state.dfy`, `grade_documents.dfy`, `web_search.dfy`,
  `rag_nodes.dfy`, `rag_graph.dfy`).
  - A router sends the question to the vector-store retriever or to web search.
  - Retrieved documents are graded for relevance. If any is irrelevant, web
    search adds a document.
  - An answer is generated and then checked. An ungrounded answer is
    regenerated. A grounded answer that does not address the question sends
    the run to web search. A grounded, useful answer ends the run.
  - The document list is a mutable object: web search appends to it in place.

The shared pieces are:

- `wrappers.dfy`: `Option`.
- `builtins.dfy`: the Python built-ins the code relies on, which are ASCII
  `str.lower`, substring `in`, `str.join` and `str(int)`.
- `state_graphs.dfy`: a `GraphBuilder` class. It records the nodes, the entry
  point and the edge table that each workflow's builder wires.

Every call to a language model, the search tool or the retriever is a
function parameter (an oracle). In the reflexion and RAG graphs, calls that can
happen more than once in a run also receive the call's number, so any sequence
of answers is a possible run. The reflection chains receive only the message
history; it grows by one message at every step, so no two of their calls in a
run see the same input.

Each workflow's run is a method with a step loop over the edge table that its
builder method is proved to wire:

- the reflection and reflexion runs are proved to terminate, with bounds on
  the number of revisions;
- the RAG graph can cycle, so its run takes a step ceiling (LangGraph's
  recursion limit) and reports hitting it.

## Model

| member | source | states |
|---|---|---|
| Builtins.Lower | reflection-agent/main.py:61 | Lower-casing keeps the length, leaves no upper-case letter, keeps every other character and shifts each upper-case letter by 32 |
| Builtins.Contains | reflection-agent/main.py:60-63 | A substring test is true exactly when the pattern occurs at some position of the text |
| Builtins.JoinSnoc | reflexion-agent/tool_executor.py:39 | Joining one more part appends the separator and that part |
| Builtins.JoinLength | reflexion-agent/tool_executor.py:39 | The joined text's length is the parts' total length plus one separator between each two parts |
| Builtins.JoinStartsWithFirst | reflexion-agent/tool_executor.py:39 | A join of a non-empty list starts with its first part |
| Builtins.Decimal | reflexion-agent/tool_executor.py:32 | The decimal text of a number is non-empty, is all digits and has no leading zero |
| Builtins.DecimalRoundTrip | reflexion-agent/tool_executor.py:32 | Reading the decimal text back gives the number |
| StateGraphs.Resolve | agent-rag-workflow/graph/graph.py:87-98 | A plain edge leads to its target under every label; a conditional edge leads to the mapped target and to nothing for an unmapped label |
| StateGraphs.GraphBuilder.constructor | agent-rag-workflow/graph/graph.py:76 | A new builder has no nodes, no entry point and no edges |
| StateGraphs.GraphBuilder.AddNode | agent-rag-workflow/graph/graph.py:78-81 | Adds exactly one new node and leaves the entry point and edges alone |
| StateGraphs.GraphBuilder.SetEntryPoint | reflection-agent/main.py:82 | Sets a fixed entry node and leaves the rest alone |
| StateGraphs.GraphBuilder.SetConditionalEntryPoint | agent-rag-workflow/graph/graph.py:83-85 | Sets a routed entry with its path map and leaves the rest alone |
| StateGraphs.GraphBuilder.AddEdge | agent-rag-workflow/graph/graph.py:87 | Adds a plain edge from a node that has no edge yet, and only that edge |
| StateGraphs.GraphBuilder.AddConditionalEdges | agent-rag-workflow/graph/graph.py:88-96 | Adds a routed edge with its path map from a node that has no edge yet, and only that edge |
| ReflectionAgent.Merge | reflection-agent/main.py:17-22 | The update's messages are appended after the history, which is kept as a prefix; a count in the update replaces the old one, otherwise the old count stays; the cap never changes; an empty update changes nothing |
| ReflectionAgent.Generate | reflection-agent/main.py:25-33 | Exactly one AI message, produced by the chain from the whole history; the count becomes the old count (0 when unset) plus one |
| ReflectionAgent.Reflect | reflection-agent/main.py:36-42 | Exactly one human message carrying the critique chain's output; the count is not touched |
| ReflectionAgent.AnyKeywordIn | reflection-agent/main.py:60-63 | True exactly when some keyword occurs in the text |
| ReflectionAgent.ShouldContinue | reflection-agent/main.py:45-70 | "end" when the count (default 0) reaches the cap (default 5); otherwise "end" exactly when the last message is a string whose lower-cased text contains a keyword; "continue" in every other case |
| ReflectionAgent.EdgesRoute | reflection-agent/main.py:84-88 | GENERATE always leads to REFLECT; END is reached only from REFLECT on "end"; GENERATE is re-entered only from REFLECT on "continue" |
| ReflectionAgent.CreateWorkflow | reflection-agent/main.py:73-90 | The builder ends with both nodes, entry GENERATE and exactly the edge table above |
| ReflectionAgent.GenerateStep | reflection-agent/main.py:25-33 | One GENERATE step appends the chain's draft to the history, raises the count by one, passes control to REFLECT and keeps every recorded run fact true |
| ReflectionAgent.ReflectStep | reflection-agent/main.py:36-70 | One REFLECT step appends the critique and leaves the count alone. Control passes to END when the router says "end" on the new state, and back to GENERATE otherwise. Every recorded run fact stays true |
| ReflectionAgent.RoundsSurviveAppend | reflection-agent/main.py:17-22 | Appending messages leaves the state after each finished round unchanged |
| ReflectionAgent.GenerateKeepsRounds | reflection-agent/main.py:25-33 | A GENERATE step follows a round after which the router said "continue" |
| ReflectionAgent.ReflectKeepsRounds | reflection-agent/main.py:36-70 | A REFLECT step completes a round. The state after it is the new state, and the next target is chosen by the router on that state |
| ReflectionAgent.Run | reflection-agent/main.py:25-88 | A run always ends. GENERATE runs at least once and at most max(1, cap − initial count) times, alternating with REFLECT. The count grows by the number of generations. The history only grows, one message per step, each an AI draft or a human critique made from the history before it. The final state is the state after the last round, and the router says "end" on it. After every earlier round the router said "continue", so the run stops at the first "end". Stopping before the cap means the last critique satisfied the heuristic |
| ReflectionAgent.ExcellentCritiqueStops | reflection-agent/main.py:57-65 | The critique "This is Excellent work" ends the loop below the cap, because the check ignores case |
| ReflectionAgent.NegativeCritiqueStops | reflection-agent/main.py:60-63 | The critique "unsatisfactory" also ends the loop below the cap, because the check is a plain substring test |
| ReflectionAgent.NoCritiqueContinues | reflection-agent/main.py:57-70 | Below the cap, an empty history or a last message whose content is not a string means "continue" |
| ToolExecutor.QueryEntries | reflexion-agent/tool_executor.py:24-37 | A query adds at least one line. A failed search adds only its error line. Otherwise the query's first line is its header. A non-list result adds the header and the result's text. A list result adds the header and then the item lines, numbered from 1 |
| ToolExecutor.CollectItems | reflexion-agent/tool_executor.py:28-32 | The loop over a result list adds one numbered line per item, numbered from 1, and stops at the first item that cannot be processed with the query's error line |
| ToolExecutor.CollectQuery | reflexion-agent/tool_executor.py:24-37 | The loop over one query's results adds exactly that query's lines |
| ToolExecutor.ExecuteSearches | reflexion-agent/tool_executor.py:12-39 | The loop over the queries returns the newline-joined lines of all queries in order, or the fallback text when there are no queries |
| ToolExecutor.EntriesSnoc | reflexion-agent/tool_executor.py:23-37 | One more query adds exactly its own lines after all earlier lines |
| ToolExecutor.EntriesAppend | reflexion-agent/tool_executor.py:23-37 | The lines for two lists of queries back to back are the two lists' lines back to back |
| ToolExecutor.EntriesAround | reflexion-agent/tool_executor.py:23-37 | Each query's lines sit between those of the earlier and the later queries, whatever its outcome: an error does not stop later queries |
| ToolExecutor.EntriesStartWithNewline | reflexion-agent/tool_executor.py:26-37 | A non-empty query list gives lines, and the first starts with a newline |
| ToolExecutor.AggregateNonEmpty | reflexion-agent/tool_executor.py:39 | For a non-empty query list the result is the joined lines, and it never equals the fallback text |
| ToolExecutor.ItemNumbering | reflexion-agent/tool_executor.py:29-32 | Result lines are numbered consecutively from 1. A missing content or URL shows its default text |
| ReflexionAgent.DraftAnswer | reflexion-agent/graph.py:22-37 | The answer and queries come from the actor, given only the question; the count restarts at 0; every other field is unchanged |
| ReflexionAgent.ExecuteTools | reflexion-agent/graph.py:41-53 | The search results are the aggregate for the state's queries; nothing else changes |
| ReflexionAgent.ReviseAnswer | reflexion-agent/graph.py:57-80 | The critique, answer and queries come from the revisor, given the question, previous answer and results; the count goes up by one; nothing else changes |
| ReflexionAgent.ShouldContinue | reflexion-agent/graph.py:84-98 | At or over the cap it says "end"; it says "execute_tools" exactly when below the cap with queries left |
| ReflexionAgent.EdgesRoute | reflexion-agent/graph.py:117-131 | END is reached only from REVISE_ANSWER on "end"; nothing leads back to DRAFT_ANSWER; EXECUTE_TOOLS always leads to REVISE_ANSWER |
| ReflexionAgent.CreateGraph | reflexion-agent/graph.py:102-134 | The builder ends with the three nodes, entry DRAFT_ANSWER and exactly the edge table above |
| ReflexionAgent.DraftStep | reflexion-agent/graph.py:22-37 | DRAFT_ANSWER starts the run: the count restarts and control passes to EXECUTE_TOOLS |
| ReflexionAgent.SearchStep | reflexion-agent/graph.py:41-53 | EXECUTE_TOOLS changes only the search results and passes control to REVISE_ANSWER |
| ReflexionAgent.ReviseStep | reflexion-agent/graph.py:57-98 | REVISE_ANSWER raises the count by one and records its state. The router on that state picks EXECUTE_TOOLS or END |
| ReflexionAgent.RecordRevision | reflexion-agent/graph.py:84-98 | The recorded state after each revision carries its own count. The router said "execute_tools" after every recorded revision but the latest |
| ReflexionAgent.BeforeRound | reflexion-agent/graph.py:22-37 | The state entering the i-th EXECUTE_TOOLS is the actor's draft for the first round and the previous revision's state after that. It keeps the question and the cap, and its count is i |
| ReflexionAgent.AfterRevision | reflexion-agent/graph.py:41-80 | The state after the i-th REVISE_ANSWER is the revisor's i-th answer on the results of the i-th round of searches. It keeps the question and the cap, and its count is i + 1 |
| ReflexionAgent.ReplayDraft | reflexion-agent/graph.py:22-37 | The draft is the state entering the first EXECUTE_TOOLS |
| ReflexionAgent.ReplaySearch | reflexion-agent/graph.py:41-53 | EXECUTE_TOOLS, with its searches numbered by the revisions so far, gives the state that the revisor of that round sees |
| ReflexionAgent.ReplayRevise | reflexion-agent/graph.py:57-80 | REVISE_ANSWER, with the revisor call numbered by the revisions so far, gives the next revision's state. That state enters the next EXECUTE_TOOLS |
| ReflexionAgent.Step | reflexion-agent/graph.py:102-131 | One step runs the node, replaces the state with the node's result and takes the next target from the edge table. The run facts and the oracle replay stay true, and the measure goes down |
| ReflexionAgent.RunEnds | reflexion-agent/graph.py:84-131 | A run that reached END drafted once and then alternated EXECUTE_TOOLS and REVISE_ANSWER. Its revisions are the oracle-determined states, the router continued after every one but the last, and the final state is the last revision |
| ReflexionAgent.Run | reflexion-agent/graph.py:102-131 | A run always ends: one draft, then 1 to max(cap, 1) rounds of EXECUTE_TOOLS then REVISE_ANSWER. The count equals the revisions made. Question and cap are kept. The state after each revision is the one its oracles determine: the actor's draft, then for each round the searches on the current queries and the revisor on their results. The router said "execute_tools" after every revision but the last. The final state is the last revision, on which it says "end", so the run stops at the first "end". Ending below the cap means no queries were left |
| RagState.DocumentList.constructor | agent-rag-workflow/graph/nodes/web_search.py:33 | A new list holds exactly the given documents |
| RagState.DocumentList.Append | agent-rag-workflow/graph/nodes/web_search.py:31 | Appending in place adds the document at the end and keeps the rest |
| RagState.Merge | agent-rag-workflow/graph/state.py:8-22 | With no reducers, each field in the update replaces the old value and an absent field keeps it; an empty update changes nothing |
| WebSearch.WebDocumentOneMore | agent-rag-workflow/graph/nodes/web_search.py:24-28 | One more search result adds a blank line and its content to the end of the document text |
| WebSearch.WebDocumentSingle | agent-rag-workflow/graph/nodes/web_search.py:24-28 | A single result's document text is exactly its content |
| WebSearch.WebSearch | agent-rag-workflow/graph/nodes/web_search.py:13-35 | An existing list is extended in place with the search document and returned as the same object. Without a list, a new one-element list is returned. The question is handed back and no other field is set |
| GradeDocuments.FilterDocuments | agent-rag-workflow/graph/nodes/grade_documents.py:16-32 | The loop calls the relevance model exactly once per document, in input order, on the question and that document's text (a ghost log records the calls). It keeps exactly the documents graded relevant, in order. The flag is raised exactly when some document was graded irrelevant. No documents gives nothing kept and no flag |
| GradeDocuments.KeptPositionsExact | agent-rag-workflow/graph/nodes/grade_documents.py:19-32 | The kept positions are in range and strictly increasing. A position is kept exactly when its grade is "yes" in any case |
| GradeDocuments.KeepRelevantAtPositions | agent-rag-workflow/graph/nodes/grade_documents.py:19-32 | The kept documents are, one for one, the documents at the kept positions |
| GradeDocuments.KeepRelevantLength | agent-rag-workflow/graph/nodes/grade_documents.py:16-34 | At most all documents are kept. All are kept exactly when none was rejected, that is when the flag stays down |
| GradeDocuments.GradeDocuments | agent-rag-workflow/graph/nodes/grade_documents.py:8-34 | Calls the relevance model once per document of the state's list, in order. Returns a new list of the relevant documents, the flag and the question unchanged, and no generation |
| RagNodes.Retrieve | agent-rag-workflow/graph/nodes/retrieve.py:7-13 | A new list of the retriever's documents for the question; the question is handed back |
| RagNodes.Generate | agent-rag-workflow/graph/nodes/generate.py:8-17 | The generation is the chain's answer from the question and the current documents. The document list is handed back as the same object |
| RagGraph.DecideToGenerate | agent-rag-workflow/graph/graph.py:16-26 | Web search exactly when the flag is raised, generate exactly when it is not |
| RagGraph.RouteQuestion | agent-rag-workflow/graph/graph.py:29-40 | Web search exactly for the web-search datasource. Retrieve exactly for "vectorstore". No route for any other answer |
| RagGraph.GradeGeneration | agent-rag-workflow/graph/graph.py:43-73 | The hallucination grader is asked first, on the documents and the generation. "not supported" exactly when it rejects, and then the answer grader is never asked. Otherwise the answer grader is asked on the question and the generation: "useful" exactly when it accepts, "not useful" exactly when it rejects |
| RagGraph.EntryPaths | agent-rag-workflow/graph/graph.py:83-85 | The entry router's two labels map to their own nodes and nothing else is mapped |
| RagGraph.EdgesRoute | agent-rag-workflow/graph/graph.py:87-98 | END is reached only from GENERATE on "useful". Retrieve leads to grading. Web search leads to generate. Nothing leads back to retrieve. "not supported" regenerates. "not useful" searches the web |
| RagGraph.WorkflowDeclared | agent-rag-workflow/graph/graph.py:78-98 | The entry router and every edge name only the four declared nodes or END, and only declared nodes have edges |
| RagGraph.FollowsIsWired | agent-rag-workflow/graph/graph.py:87-98 | One node can follow another exactly when some label connects them in the edge table |
| RagGraph.BuildWorkflow | agent-rag-workflow/graph/graph.py:76-98 | The builder ends with the four nodes, the routed entry and exactly the edge table above |
| RagGraph.RunNode | agent-rag-workflow/graph/graph.py:78-81 | The merged state after each node. Retrieve: a new list of the retriever's documents. Grade: a new list of the relevant documents and the flag raised exactly when one was rejected. Web search: the search document appended to the state's list in place, or a new one-element list, and the search counted. Generate: the same list and the generator's answer on the question and documents, and the generation counted. Every node keeps the question and the fields it does not set, and only web search changes the old list |
| RagGraph.Advance | agent-rag-workflow/graph/graph.py:78-81 | Running a node changes the state's values exactly as that node's effect says. Retrieve sets the retriever's documents. Grading keeps the relevant documents and sets the flag. Web search appends its document. Generate sets the generator's answer. The search and generation call counters advance with their nodes. The old list only grows, and only web search changes it |
| RagGraph.NextTarget | agent-rag-workflow/graph/graph.py:83-98 | The next node follows a wired edge |
| RagGraph.NextTargetRoutes | agent-rag-workflow/graph/graph.py:16-98 | Retrieve leads to grading, and web search leads to generate. After grading, web search exactly when the flag is raised and generate exactly when it is not. After GENERATE: regenerate exactly when the hallucination grader rejects; web search exactly when it accepts and the answer grader rejects; END exactly when both accept. With graders that always accept GENERATE ends the run, and with a hallucination grader that always rejects nothing does |
| RagGraph.ReplayEffectAt | agent-rag-workflow/graph/graph.py:78-81 | In a replayed run, each recorded state is its node's effect on the state before it, with the calls numbered by the earlier steps |
| RagGraph.ReplayRoutedAt | agent-rag-workflow/graph/graph.py:83-98 | In a replayed run, each step after the first is where the previous node's router sent the run on the state that node left |
| RagGraph.RunStep | agent-rag-workflow/graph/graph.py:78-98 | Running one more node and following its router keeps every recorded run fact true: the replay, the call counters and the wired edges |
| RagGraph.RunSummary | agent-rag-workflow/graph/graph.py:83-101 | A run in progress began at the routed node, used at most the step ceiling, followed wired edges, and counted one generation per GENERATE step |
| RagGraph.Step | agent-rag-workflow/graph/graph.py:78-98 | One step runs the node and asks its router for the next target. The new state extends the replay |
| RagGraph.RunFrom | agent-rag-workflow/graph/graph.py:76-101 | The step loop runs until END or the step ceiling. Every step is replayed, and the current state is the latest recorded one. The caller's document list only grows, and it is untouched unless web search ran |
| RagGraph.RunFinishes | agent-rag-workflow/graph/graph.py:92-96 | A run whose router answered END last ran GENERATE, and both graders accepted that generation |
| RagGraph.RunStops | agent-rag-workflow/graph/graph.py:76-101 | A run stopped by the ceiling still had a node to go to. That cannot happen with graders that always accept and a ceiling of at least 4 |
| RagGraph.Run | agent-rag-workflow/graph/graph.py:76-101 | An unknown datasource gives no steps. Otherwise the first step is the routed node, every step follows a wired edge, and at most the step ceiling is used. The recorded states replay the run: each is its node's effect on the state before it, and each next step is the previous router's choice on its state. A finished run's last router answered END. It ended with GENERATE, and its last generation was accepted by both graders on the final documents and question. A run stopped by the ceiling had its router still pointing at a node. With graders that always accept and a ceiling of at least 4, the run finishes. With a hallucination grader that always rejects, it never finishes. The caller's document list only grows, and it is untouched unless web search ran |

## Left out

- Printing, logging and drawing the graph (`print`, `print_step`, `draw_mermaid_png`), and loading environment variables, are not modelled.
- The chains' prompts and models, the Tavily client and the vector-store retriever are not modelled. They are the oracle parameters. `reflexion-agent/chains.py`, `agent-rag-workflow/model/model.py` and `agent-rag-workflow/ingestion.py` are not part of this model.
- The command-line entry points (`main.py` in each project) and the `utils` helpers are not part of this model.
- `graph/consts.py` is not part of this model. The node names are datatype constructors. The web-search datasource string is taken to be "websearch"; only its difference from "vectorstore" matters.
- `add_messages` is modelled as appending. Its replacement of a message whose ID matches an earlier one is not modelled. GENERATE appends the generate chain's own response message, which could in principle carry any ID; REFLECT builds a new message without one. The model assumes that no appended message's ID matches an earlier message's, so the reducer never replaces.
- LangGraph's recursion limit appears only in the RAG run, as the step ceiling. The reflection run is proved to take at most 2·max(1, cap − initial count) steps, and the reflexion run at most 1 + 2·max(cap, 1) steps. With a cap large enough to exceed LangGraph's recursion limit, the source would stop with a recursion-limit error; the model does not capture that error and ends normally after the proved number of steps.
- A call to a language model, the retriever or the search tool that raises an exception aborts the source's run (in web search this includes a missing `results` or `content` key in the Tavily response). The oracles here are total functions, so that abort is not modelled; only the reflexion tool executor's own `try`/`except` is.
- Builtins.Lower: ASCII letters only; Python's `str.lower` also folds non-ASCII letters.
- ReflectionAgent.ShouldContinue: message content that is a list of content parts is one opaque case. The source treats any non-string content as "continue", and so does the model.
- ToolExecutor.QueryEntries: the exception text `str(e)` and the text of a non-list result `str(results)` are inputs. A result item that makes processing raise ends that query's lines with the error line, and the model does the same. The tool's `max_results=3` is not enforced.
- ReflexionAgent.Run: the actor and revisor queries are capped at three by their schema, modelled as a subset type; the schema's other validation is not modelled.
- The retrieval grader's score is a string, compared after lower-casing. The hallucination and answer graders' scores are booleans.
- RagGraph.Run: there is no termination claim. "not supported" and "not useful" can cycle forever, and the source does not bound them except through the recursion limit.
- No concurrency is modelled; every graph runs one node at a time.
