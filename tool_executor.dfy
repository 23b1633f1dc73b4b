/**
 * Aggregating web-search results for the reflexion agent: one search call per
 * query, in order; each call's outcome adds a header and numbered result lines,
 * a raw text form, or an error line; the collected entries are joined with
 * newlines, with a fixed fallback when there are none.
 */
module ToolExecutor {
  import opened Wrappers
  import opened Builtins

  /**
   * One element of a list-shaped search result: a record whose "content" and
   * "url" keys may be missing, or an element on which the key lookup raises
   * (its exception text is `error`).
   */
  datatype ResultItem = Hit(content: Option<string>, url: Option<string>) | BadItem(error: string)

  /** The outcome of one search call: a list, any other value (as its text), or an exception. */
  datatype SearchOutcome = Listed(items: seq<ResultItem>) | Other(text: string) | Raised(error: string)

  const NO_RESULTS := "No search results found."
  const NO_CONTENT := "No content available"
  const NO_URL := "No URL"

  function Header(query: string): string {
    "\n--- Results for: " + query + " ---"
  }

  function ItemLine(number: nat, content: string, url: string): string {
    "\n" + Decimal(number) + ". " + content + "\nSource: " + url
  }

  function ErrorLine(query: string, error: string): string {
    "\nError searching for '" + query + "': " + error
  }

  /**
   * The lines of a list result, numbered from `next`; the first element whose
   * lookup raises ends the list with an error line for the query.
   */
  function ItemEntries(query: string, items: seq<ResultItem>, next: nat): seq<string>
    decreases |items|
  {
    if items == [] then []
    else match items[0]
      case BadItem(e) => [ErrorLine(query, e)]
      case Hit(c, u) => [ItemLine(next, c.GetOr(NO_CONTENT), u.GetOr(NO_URL))] + ItemEntries(query, items[1..], next + 1)
  }

  /** The entries one query contributes. */
  function QueryEntries(query: string, outcome: SearchOutcome): (r: seq<string>)
    ensures |r| >= 1
    ensures outcome.Raised? ==> r == [ErrorLine(query, outcome.error)]
    ensures !outcome.Raised? ==> r[0] == Header(query)
    ensures outcome.Other? ==> r == [Header(query), outcome.text]
    ensures outcome.Listed? ==> r == [Header(query)] + ItemEntries(query, outcome.items, 1)
  {
    match outcome
    case Raised(e) => [ErrorLine(query, e)]
    case Other(t) => [Header(query), t]
    case Listed(items) => [Header(query)] + ItemEntries(query, items, 1)
  }

  /** Each query's own entries, in input order. */
  function PerQuery(queries: seq<string>, outcomes: seq<SearchOutcome>): (r: seq<seq<string>>)
    requires |outcomes| == |queries|
    ensures |r| == |queries|
    ensures forall i :: 0 <= i < |queries| ==> r[i] == QueryEntries(queries[i], outcomes[i])
  {
    seq(|queries|, i requires 0 <= i < |queries| => QueryEntries(queries[i], outcomes[i]))
  }

  /** The entries of all queries, query by query in input order. */
  function Entries(queries: seq<string>, outcomes: seq<SearchOutcome>): seq<string>
    requires |outcomes| == |queries|
  {
    Flatten(PerQuery(queries, outcomes))
  }

  /** The returned text: the entries joined by newlines, or the fallback when there are none. */
  function Aggregate(queries: seq<string>, outcomes: seq<SearchOutcome>): string
    requires |outcomes| == |queries|
  {
    var entries := Entries(queries, outcomes);
    if entries == [] then NO_RESULTS else Join("\n", entries)
  }

  /**
   * Runs the search for every query (the `i`-th outcome is that of the `i`-th
   * call) and collects the entries; no exception escapes.
   */
  method ExecuteSearches(queries: seq<string>, outcomes: seq<SearchOutcome>) returns (r: string)
    requires |outcomes| == |queries|
    ensures r == Aggregate(queries, outcomes)
    ensures queries == [] ==> r == NO_RESULTS
  {
    var allResults: seq<string> := [];
    for k := 0 to |queries|
      invariant allResults == Entries(queries[..k], outcomes[..k])
    {
      assert queries[..k + 1] == queries[..k] + [queries[k]];
      assert outcomes[..k + 1] == outcomes[..k] + [outcomes[k]];
      EntriesSnoc(queries[..k], outcomes[..k], queries[k], outcomes[k]);
      var added := CollectQuery(queries[k], outcomes[k]);
      allResults := allResults + added;
    }
    assert queries[..|queries|] == queries;
    assert outcomes[..|outcomes|] == outcomes;
    r := if allResults == [] then NO_RESULTS else Join("\n", allResults);
  }

  /** The body of the per-query `try`: the entries appended for one query. */
  method CollectQuery(query: string, outcome: SearchOutcome) returns (added: seq<string>)
    ensures added == QueryEntries(query, outcome)
  {
    match outcome
    case Raised(e) =>
      added := [ErrorLine(query, e)];
    case Other(t) =>
      added := [Header(query)];
      added := added + [t];
    case Listed(items) =>
      added := [Header(query)];
      var lines := CollectItems(query, items);
      added := added + lines;
  }

  /**
   * The loop over a list result: one numbered line per element, from 1; an
   * element whose lookup raises adds the error line and ends the loop.
   */
  method CollectItems(query: string, items: seq<ResultItem>) returns (lines: seq<string>)
    ensures lines == ItemEntries(query, items, 1)
  {
    lines := [];
    var i := 0;
    while i < |items|
      invariant 0 <= i <= |items|
      invariant lines + ItemEntries(query, items[i..], i + 1) == ItemEntries(query, items, 1)
    {
      var rest := items[i..];
      assert rest[1..] == items[i + 1..];
      match items[i]
      case Hit(c, u) =>
        lines := lines + [ItemLine(i + 1, c.GetOr(NO_CONTENT), u.GetOr(NO_URL))];
        i := i + 1;
      case BadItem(e) =>
        lines := lines + [ErrorLine(query, e)];
        return;
    }
  }

  /** Entries of two batches of queries are the entries of the first followed by those of the second. */
  lemma EntriesAppend(q1: seq<string>, o1: seq<SearchOutcome>, q2: seq<string>, o2: seq<SearchOutcome>)
    requires |o1| == |q1| && |o2| == |q2|
    ensures Entries(q1 + q2, o1 + o2) == Entries(q1, o1) + Entries(q2, o2)
  {
    assert PerQuery(q1 + q2, o1 + o2) == PerQuery(q1, o1) + PerQuery(q2, o2);
    FlattenAppend(PerQuery(q1, o1), PerQuery(q2, o2));
  }

  /** One more query adds its own entries at the end. */
  lemma EntriesSnoc(queries: seq<string>, outcomes: seq<SearchOutcome>, query: string, outcome: SearchOutcome)
    requires |outcomes| == |queries|
    ensures Entries(queries + [query], outcomes + [outcome])
            == Entries(queries, outcomes) + QueryEntries(query, outcome)
  {
    EntriesAppend(queries, outcomes, [query], [outcome]);
    var own := QueryEntries(query, outcome);
    assert PerQuery([query], [outcome]) == [own];
    FlattenSingle(own);
  }

  /** A query between two batches contributes its entries between theirs. */
  lemma EntriesSplit(q1: seq<string>, o1: seq<SearchOutcome>, query: string, outcome: SearchOutcome,
                     q2: seq<string>, o2: seq<SearchOutcome>)
    requires |o1| == |q1| && |o2| == |q2|
    ensures Entries(q1 + [query] + q2, o1 + [outcome] + o2)
            == Entries(q1, o1) + QueryEntries(query, outcome) + Entries(q2, o2)
  {
    EntriesAppend(q1 + [query], o1 + [outcome], q2, o2);
    EntriesSnoc(q1, o1, query, outcome);
  }

  /**
   * Query `k` contributes its own entries between those of the queries
   * before and after it, whatever its outcome: a failing query does not stop
   * the later ones.
   */
  lemma EntriesAround(queries: seq<string>, outcomes: seq<SearchOutcome>, k: nat)
    requires |outcomes| == |queries| && k < |queries|
    ensures Entries(queries, outcomes)
            == Entries(queries[..k], outcomes[..k])
               + QueryEntries(queries[k], outcomes[k])
               + Entries(queries[k + 1..], outcomes[k + 1..])
  {
    assert queries == queries[..k] + [queries[k]] + queries[k + 1..];
    assert outcomes == outcomes[..k] + [outcomes[k]] + outcomes[k + 1..];
    EntriesSplit(queries[..k], outcomes[..k], queries[k], outcomes[k], queries[k + 1..], outcomes[k + 1..]);
  }

  /** Some queries give some entries, and the first entry starts with a newline. */
  lemma {:induction false} EntriesStartWithNewline(queries: seq<string>, outcomes: seq<SearchOutcome>)
    requires |outcomes| == |queries| && |queries| > 0
    ensures |Entries(queries, outcomes)| > 0
    ensures |Entries(queries, outcomes)[0]| > 0 && Entries(queries, outcomes)[0][0] == '\n'
    decreases |queries|
  {
    var n := |queries| - 1;
    assert queries == queries[..n] + [queries[n]] && outcomes == outcomes[..n] + [outcomes[n]];
    EntriesSnoc(queries[..n], outcomes[..n], queries[n], outcomes[n]);
    if n > 0 {
      EntriesStartWithNewline(queries[..n], outcomes[..n]);
    }
  }

  /** For a non-empty query list the text is the joined entries, which never equals the fallback. */
  lemma AggregateNonEmpty(queries: seq<string>, outcomes: seq<SearchOutcome>)
    requires |outcomes| == |queries| && |queries| > 0
    ensures Aggregate(queries, outcomes) == Join("\n", Entries(queries, outcomes))
    ensures Aggregate(queries, outcomes) != NO_RESULTS
  {
    var entries := Entries(queries, outcomes);
    EntriesStartWithNewline(queries, outcomes);
    JoinStartsWithFirst("\n", entries);
    assert Aggregate(queries, outcomes)[0] == '\n';
  }

  /**
   * Result lines are numbered consecutively from the first number, and a
   * missing content or URL shows its default text.
   */
  lemma {:induction false} ItemNumbering(query: string, items: seq<ResultItem>, next: nat, j: nat)
    requires j < |items|
    requires forall t :: 0 <= t <= j ==> items[t].Hit?
    ensures |ItemEntries(query, items, next)| > j
    ensures ItemEntries(query, items, next)[j]
            == ItemLine(next + j, items[j].content.GetOr(NO_CONTENT), items[j].url.GetOr(NO_URL))
    decreases j
  {
    if j > 0 {
      ItemNumbering(query, items[1..], next + 1, j - 1);
    }
  }
}
