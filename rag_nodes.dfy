/**
 * The RAG workflow's retrieve and generate nodes. The retriever and the
 * generation chain are parameters.
 */
module RagNodes {
  import opened Wrappers
  import opened RagState

  /** Retrieve: a new list of the retriever's documents for the question. */
  method Retrieve(s: GraphState, retriever: string -> seq<Document>) returns (u: Update)
    ensures u.question == Some(s.question) && u.generation.None? && u.webSearch.None?
    ensures u.documents.Some? && fresh(u.documents.value)
    ensures u.documents.value.items == retriever(s.question)
  {
    var question := s.question;
    var documents := new DocumentList(retriever(question));
    u := Update(Some(question), None, None, Some(documents));
  }

  /**
   * Generate: the chain's answer from the question and the current
   * documents; the state's document list is handed back as the same object.
   * The state must hold a document list.
   */
  function Generate(s: GraphState, chain: (string, seq<Document>) -> string): (u: Update)
    requires s.documents.Some?
    reads s.documents.value
    ensures u.question == Some(s.question) && u.webSearch.None?
    ensures u.documents == s.documents
    ensures u.generation == Some(chain(s.question, s.documents.value.items))
  {
    Update(Some(s.question), Some(chain(s.question, s.documents.value.items)), None, s.documents)
  }
}
