/**
 * The RAG workflow's web-search node: search the web for the question, make
 * one document of the results, and add it to the state's document list in
 * place, or start a new list when the state has none.
 */
module WebSearch {
  import opened Wrappers
  import opened Builtins
  import opened RagState

  /** One web search result; only its "content" is read. */
  datatype SearchResult = SearchResult(content: string)

  function Contents(results: seq<SearchResult>): (cs: seq<string>)
    ensures |cs| == |results|
    ensures forall i :: 0 <= i < |results| ==> cs[i] == results[i].content
  {
    seq(|results|, i requires 0 <= i < |results| => results[i].content)
  }

  /** The document built from the results: their contents, in order, joined by blank lines. */
  function WebDocument(results: seq<SearchResult>): Document {
    Document(Join("\n\n", Contents(results)), map[])
  }

  /** One more result puts a blank line and its content at the end of the document's text. */
  lemma WebDocumentOneMore(results: seq<SearchResult>, last: SearchResult)
    requires |results| > 0
    ensures WebDocument(results + [last]).pageContent
            == WebDocument(results).pageContent + "\n\n" + last.content
  {
    assert Contents(results + [last]) == Contents(results) + [last.content];
    JoinSnoc("\n\n", Contents(results), last.content);
  }

  /** A single result gives a document whose text is exactly that result's content. */
  lemma WebDocumentSingle(result: SearchResult)
    ensures WebDocument([result]).pageContent == result.content
  {
    assert Contents([result]) == [result.content];
  }

  /**
   * The node: `search` maps the question to the search results. An existing
   * list is extended in place and returned as the same object; otherwise a
   * new one-element list is returned. The question is returned unchanged.
   */
  method WebSearch(s: GraphState, search: string -> seq<SearchResult>) returns (u: Update)
    modifies if s.documents.Some? then {s.documents.value} else {}
    ensures u.question == Some(s.question) && u.generation.None? && u.webSearch.None?
    ensures u.documents.Some?
    ensures s.documents.Some? ==>
              u.documents == s.documents
              && s.documents.value.items == old(s.documents.value.items) + [WebDocument(search(s.question))]
    ensures s.documents.None? ==>
              fresh(u.documents.value) && u.documents.value.items == [WebDocument(search(s.question))]
  {
    var question := s.question;
    var documents := s.documents;
    var webResults := WebDocument(search(question));
    if documents.Some? {
      documents.value.Append(webResults);
    } else {
      var created := new DocumentList([webResults]);
      documents := Some(created);
    }
    u := Update(Some(question), None, None, documents);
  }
}
