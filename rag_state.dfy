/**
 * The adaptive RAG workflow's state: the question, the latest generation, the
 * "needs web search" flag and the current list of documents. The list is a
 * mutable object that the state refers to, so a node can extend it in place.
 * Fields a run has not set yet are `None`. Merging a node's partial update
 * overwrites exactly the fields the update carries.
 */
module RagState {
  import opened Wrappers

  /** A document: its text and its metadata (such as its source URL). */
  datatype Document = Document(pageContent: string, metadata: map<string, string>)

  /** A mutable list of documents. */
  class DocumentList {
    var items: seq<Document>

    constructor (items: seq<Document>)
      ensures this.items == items
    {
      this.items := items;
    }

    /** Appends one document at the end, in place. */
    method Append(d: Document)
      modifies this
      ensures items == old(items) + [d]
    {
      items := items + [d];
    }
  }

  datatype GraphState = GraphState(
    question: string,
    generation: Option<string>,
    webSearch: Option<bool>,
    documents: Option<DocumentList>)

  /**
   * The state's values as a router reads them: the document list is replaced
   * by its current contents.
   */
  datatype Snapshot = Snapshot(
    question: string,
    generation: Option<string>,
    webSearch: Option<bool>,
    documents: Option<seq<Document>>)

  function SnapshotOf(s: GraphState): Snapshot
    reads if s.documents.Some? then {s.documents.value} else {}
  {
    Snapshot(s.question, s.generation, s.webSearch,
             if s.documents.Some? then Some(s.documents.value.items) else None)
  }

  /** A node's partial update: `None` for each field the node does not return. */
  datatype Update = Update(
    question: Option<string>,
    generation: Option<string>,
    webSearch: Option<bool>,
    documents: Option<DocumentList>)

  /** The value a field has after the merge: the update's if it carries one. */
  function Overwrite<T>(current: Option<T>, update: Option<T>): (r: Option<T>)
    ensures update.Some? ==> r == update
    ensures update.None? ==> r == current
  {
    if update.Some? then update else current
  }

  /** Merging without reducers: every field the update carries replaces the old value. */
  function Merge(s: GraphState, u: Update): (r: GraphState)
    ensures r.question == u.question.GetOr(s.question)
    ensures r.generation == Overwrite(s.generation, u.generation)
    ensures r.webSearch == Overwrite(s.webSearch, u.webSearch)
    ensures r.documents == Overwrite(s.documents, u.documents)
    ensures u == Update(None, None, None, None) ==> r == s
  {
    GraphState(
      u.question.GetOr(s.question),
      Overwrite(s.generation, u.generation),
      Overwrite(s.webSearch, u.webSearch),
      Overwrite(s.documents, u.documents))
  }
}
