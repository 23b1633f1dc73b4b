/**
 * The RAG workflow's document grading: each retrieved document is graded for
 * relevance to the question, in order; the relevant ones are kept in order,
 * and the web-search flag is raised if any document was rejected.
 */
module GradeDocuments {
  import opened Wrappers
  import opened Builtins
  import opened RagState

  /** A grade accepts a document when, lower-cased, it is exactly "yes". */
  predicate IsRelevant(grade: string) {
    Lower(grade) == "yes"
  }

  /** One call of the relevance grader: its call number, the question and a document's text. */
  datatype RelevanceCall = RelevanceCall(index: nat, question: string, document: string)

  /** The grades of the documents: the `i`-th is the relevance model's answer to its `i`-th call. */
  function Grades(question: string, documents: seq<Document>, grader: (nat, string, string) -> string): (g: seq<string>)
    ensures |g| == |documents|
    ensures forall i :: 0 <= i < |documents| ==> g[i] == grader(i, question, documents[i].pageContent)
  {
    seq(|documents|, i requires 0 <= i < |documents| => grader(i, question, documents[i].pageContent))
  }

  /** The documents whose grade is relevant, in their original order. */
  function KeepRelevant(documents: seq<Document>, grades: seq<string>): seq<Document>
    requires |grades| == |documents|
    decreases |documents|
  {
    if documents == [] then []
    else
      var n := |documents| - 1;
      KeepRelevant(documents[..n], grades[..n]) + (if IsRelevant(grades[n]) then [documents[n]] else [])
  }

  /** The positions whose grade is relevant, in increasing order. */
  function KeptPositions(grades: seq<string>): seq<nat>
    decreases |grades|
  {
    if grades == [] then []
    else
      var n := |grades| - 1;
      KeptPositions(grades[..n]) + (if IsRelevant(grades[n]) then [n] else [])
  }

  ghost predicate AnyRejected(grades: seq<string>) {
    exists i :: 0 <= i < |grades| && !IsRelevant(grades[i])
  }

  /** Some grade among the first `i + 1` is a rejection exactly when one among the first `i` is, or grade `i` is. */
  lemma RejectedPrefix(grades: seq<string>, i: nat)
    requires i < |grades|
    ensures AnyRejected(grades[..i + 1]) <==> AnyRejected(grades[..i]) || !IsRelevant(grades[i])
  {
    if AnyRejected(grades[..i + 1]) {
      var j :| 0 <= j < i + 1 && !IsRelevant(grades[..i + 1][j]);
      if j < i { assert grades[..i][j] == grades[..i + 1][j]; }
    }
    if AnyRejected(grades[..i]) {
      var j :| 0 <= j < i && !IsRelevant(grades[..i][j]);
      assert grades[..i + 1][j] == grades[..i][j];
    }
    if !IsRelevant(grades[i]) {
      assert grades[..i + 1][i] == grades[i];
    }
  }

  /**
   * The loop of the node: one grader call per document, in order; keeps the
   * relevant documents and records whether any was rejected. `calls` logs
   * the relevance model calls as they are made.
   */
  method FilterDocuments(question: string, documents: seq<Document>, grader: (nat, string, string) -> string)
    returns (filtered: seq<Document>, webSearch: bool, ghost calls: seq<RelevanceCall>)
    ensures |calls| == |documents|
    ensures forall i :: 0 <= i < |documents| ==> calls[i] == RelevanceCall(i, question, documents[i].pageContent)
    ensures filtered == KeepRelevant(documents, Grades(question, documents, grader))
    ensures webSearch <==> AnyRejected(Grades(question, documents, grader))
    ensures documents == [] ==> filtered == [] && !webSearch
  {
    ghost var grades := Grades(question, documents, grader);
    filtered := [];
    webSearch := false;
    calls := [];
    for i := 0 to |documents|
      invariant |calls| == i
      invariant forall j :: 0 <= j < i ==> calls[j] == RelevanceCall(j, question, documents[j].pageContent)
      invariant filtered == KeepRelevant(documents[..i], grades[..i])
      invariant webSearch <==> AnyRejected(grades[..i])
    {
      assert documents[..i + 1][..i] == documents[..i];
      assert grades[..i + 1][..i] == grades[..i];
      var grade := grader(i, question, documents[i].pageContent);
      calls := calls + [RelevanceCall(i, question, documents[i].pageContent)];
      if Lower(grade) == "yes" {
        filtered := filtered + [documents[i]];
      } else {
        webSearch := true;
      }
      RejectedPrefix(grades, i);
    }
    assert documents[..|documents|] == documents;
    assert grades[..|grades|] == grades;
  }

  /**
   * KeptPositions lists, in strictly increasing order, exactly the positions
   * whose grade is relevant.
   */
  lemma {:induction false} KeptPositionsExact(grades: seq<string>)
    ensures forall j :: 0 <= j < |KeptPositions(grades)| ==> KeptPositions(grades)[j] < |grades|
    ensures forall j, k :: 0 <= j < k < |KeptPositions(grades)| ==> KeptPositions(grades)[j] < KeptPositions(grades)[k]
    ensures forall i :: 0 <= i < |grades| ==> (IsRelevant(grades[i]) <==> i in KeptPositions(grades))
    decreases |grades|
  {
    if grades != [] {
      var n := |grades| - 1;
      KeptPositionsExact(grades[..n]);
      forall i | 0 <= i < n ensures grades[..n][i] == grades[i] { }
    }
  }

  /** The kept documents are the documents at the kept positions, one for one. */
  lemma {:induction false} KeepRelevantAtPositions(documents: seq<Document>, grades: seq<string>)
    requires |grades| == |documents|
    ensures |KeepRelevant(documents, grades)| == |KeptPositions(grades)|
    ensures forall j :: 0 <= j < |KeptPositions(grades)| ==>
              KeptPositions(grades)[j] < |documents|
              && KeepRelevant(documents, grades)[j] == documents[KeptPositions(grades)[j]]
    decreases |documents|
  {
    KeptPositionsExact(grades);
    if documents != [] {
      var n := |documents| - 1;
      KeepRelevantAtPositions(documents[..n], grades[..n]);
      KeptPositionsExact(grades[..n]);
    }
  }

  /** At most all documents are kept, and all of them exactly when none is rejected. */
  lemma {:induction false} KeepRelevantLength(documents: seq<Document>, grades: seq<string>)
    requires |grades| == |documents|
    ensures |KeepRelevant(documents, grades)| <= |documents|
    ensures |KeepRelevant(documents, grades)| == |documents| <==> !AnyRejected(grades)
    decreases |documents|
  {
    if documents != [] {
      var n := |documents| - 1;
      KeepRelevantLength(documents[..n], grades[..n]);
      if AnyRejected(grades[..n]) {
        var j :| 0 <= j < n && !IsRelevant(grades[..n][j]);
        assert grades[j] == grades[..n][j];
      }
      if AnyRejected(grades) && IsRelevant(grades[n]) {
        var j :| 0 <= j < |grades| && !IsRelevant(grades[j]);
        assert j < n;
        assert grades[..n][j] == grades[j];
      }
    }
  }

  /**
   * The node: requires the state to hold a document list; returns a new list
   * of the relevant documents, the question unchanged, and the flag.
   */
  method GradeDocuments(s: GraphState, grader: (nat, string, string) -> string)
    returns (u: Update, ghost calls: seq<RelevanceCall>)
    requires s.documents.Some?
    ensures |calls| == |s.documents.value.items|
    ensures forall i :: 0 <= i < |calls| ==>
              calls[i] == RelevanceCall(i, s.question, s.documents.value.items[i].pageContent)
    ensures u.question == Some(s.question) && u.generation.None?
    ensures u.documents.Some? && fresh(u.documents.value)
    ensures u.documents.value.items
            == KeepRelevant(s.documents.value.items, Grades(s.question, s.documents.value.items, grader))
    ensures u.webSearch == Some(AnyRejected(Grades(s.question, s.documents.value.items, grader)))
  {
    var question := s.question;
    var filtered, webSearch;
    filtered, webSearch, calls := FilterDocuments(question, s.documents.value.items, grader);
    var list := new DocumentList(filtered);
    u := Update(Some(question), None, Some(webSearch), Some(list));
  }
}
