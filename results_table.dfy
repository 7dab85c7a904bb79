/**
 * The results table (frontend/src/components/ResultsTable.js): the search and
 * label filter over the classified rows, and the text of the CSV download.
 */
module ResultsTable {
  import opened Wrappers
  import opened Text
  import CsvUpload

  /**
   * A classified row as the table receives it. The reviewer id and name come
   * under several keys; a key that is absent is the empty string here, since
   * the table only tests them for truthiness. The label is compared with
   * `===`, so its absence is kept apart from the empty string.
   */
  datatype Row = Row(
    reviewerId: string,
    reviewerIdUpper: string,
    reviewerIdSnake: string,
    reviewerName: string,
    reviewerNameSnake: string,
    name: string,
    classLabel: Option<string>,
    confidence: real)

  /** The first non-empty string of `options`, else the empty string (a chain of `||`). */
  function FirstSet(options: seq<string>): (r: string)
    ensures r == "" <==> forall k :: 0 <= k < |options| ==> options[k] == ""
    ensures r != "" ==>
      exists k :: 0 <= k < |options| && r == options[k] && (forall j :: 0 <= j < k ==> options[j] == "")
  {
    if options == [] then ""
    else if options[0] != "" then options[0]
    else
      var r := FirstSet(options[1..]);
      assert forall k :: 1 <= k < |options| ==> options[k] == options[1..][k - 1];
      r
  }

  /** The reviewer id the search looks at: `reviewerId`, else `reviewerID`, else `reviewer_id`. */
  function SearchId(r: Row): string {
    FirstSet([r.reviewerId, r.reviewerIdUpper, r.reviewerIdSnake])
  }

  /** The reviewer name the search looks at: `reviewerName`, else `reviewer_name`, else `name`. */
  function SearchName(r: Row): string {
    FirstSet([r.reviewerName, r.reviewerNameSnake, r.name])
  }

  /** The search term occurs, ignoring case, in the row's reviewer id or reviewer name. */
  predicate MatchesSearch(r: Row, searchTerm: string) {
    Contains(ToLower(SearchId(r)), ToLower(searchTerm)) ||
    Contains(ToLower(SearchName(r)), ToLower(searchTerm))
  }

  /** The label filter: `'all'` lets every row through, any other value only rows with that label. */
  predicate MatchesFilter(r: Row, filterLabel: string) {
    filterLabel == "all" || r.classLabel == Some(filterLabel)
  }

  predicate Shown(r: Row, searchTerm: string, filterLabel: string) {
    MatchesSearch(r, searchTerm) && MatchesFilter(r, filterLabel)
  }

  /** `filteredResults`: the rows that pass both tests, in their original order. */
  function Filtered(results: seq<Row>, searchTerm: string, filterLabel: string): (shown: seq<Row>)
    ensures |shown| <= |results|
    decreases |results|
  {
    if results == [] then []
    else
      var rest := Filtered(results[1..], searchTerm, filterLabel);
      if Shown(results[0], searchTerm, filterLabel) then [results[0]] + rest else rest
  }

  /** `a` is `b` with some elements left out and the rest in the same order. */
  predicate SubsequenceOf<T(==)>(a: seq<T>, b: seq<T>)
    decreases |b|
  {
    if b == [] then a == []
    else (a != [] && a[0] == b[0] && SubsequenceOf(a[1..], b[1..])) || SubsequenceOf(a, b[1..])
  }

  /** The shown rows keep their relative order: they are a subsequence of the results. */
  lemma {:induction false} FilteredIsSubsequence(results: seq<Row>, searchTerm: string, filterLabel: string)
    ensures SubsequenceOf(Filtered(results, searchTerm, filterLabel), results)
    decreases |results|
  {
    if results != [] {
      var rest := Filtered(results[1..], searchTerm, filterLabel);
      FilteredIsSubsequence(results[1..], searchTerm, filterLabel);
      if Shown(results[0], searchTerm, filterLabel) {
        assert ([results[0]] + rest)[1..] == rest;
      }
    }
  }

  /** A row is shown exactly when it is one of the results and passes both tests. */
  lemma {:induction false} FilteredMembers(results: seq<Row>, searchTerm: string, filterLabel: string, r: Row)
    ensures r in Filtered(results, searchTerm, filterLabel) <==> r in results && Shown(r, searchTerm, filterLabel)
    decreases |results|
  {
    if results != [] {
      FilteredMembers(results[1..], searchTerm, filterLabel, r);
      assert results == [results[0]] + results[1..];
    }
  }

  /** With a label other than `'all'`, every shown row carries that label. */
  lemma FilteredLabel(results: seq<Row>, searchTerm: string, filterLabel: string, r: Row)
    requires filterLabel != "all"
    requires r in Filtered(results, searchTerm, filterLabel)
    ensures r.classLabel == Some(filterLabel)
  {
    FilteredMembers(results, searchTerm, filterLabel, r);
  }

  /** An empty search with the label filter at `'all'` shows every row. */
  lemma {:induction false} EmptySearchShowsAll(results: seq<Row>)
    ensures Filtered(results, "", "all") == results
    decreases |results|
  {
    if results != [] {
      ContainsEmpty(ToLower(SearchId(results[0])));
      EmptySearchShowsAll(results[1..]);
      assert [results[0]] + results[1..] == results;
    }
  }

  /** With the label filter at `'all'` only the search decides. */
  lemma {:induction false} AllLabelsSearchOnly(results: seq<Row>, searchTerm: string)
    ensures Filtered(results, searchTerm, "all") == SearchOnly(results, searchTerm)
    decreases |results|
  {
    if results != [] {
      AllLabelsSearchOnly(results[1..], searchTerm);
    }
  }

  /** The rows whose reviewer id or name matches the search, in order. */
  function SearchOnly(results: seq<Row>, searchTerm: string): seq<Row>
    decreases |results|
  {
    if results == [] then []
    else if MatchesSearch(results[0], searchTerm) then [results[0]] + SearchOnly(results[1..], searchTerm)
    else SearchOnly(results[1..], searchTerm)
  }

  // ---------------------------------------------------------------------------
  // downloadCSV
  // ---------------------------------------------------------------------------

  const Headers: seq<string> := ["Reviewer ID", "Reviewer Name", "Predicted Label", "Confidence Score"]

  /** The header line of the export. */
  function HeaderLine(): string {
    Join(Headers, ",")
  }

  /**
   * The four cells of a row in the export. The id chain here stops at
   * `reviewerID` and the name is `reviewerName` alone. `fixed4` stands for
   * `toFixed(4)`.
   */
  function ExportCells(r: Row, fixed4: real -> string): (cells: seq<string>)
    ensures |cells| == 4
    ensures cells[0] == FirstSet([r.reviewerId, r.reviewerIdUpper])
    ensures cells[1] == r.reviewerName && cells[2] == r.classLabel.GetOr("") && cells[3] == fixed4(r.confidence)
  {
    [FirstSet([r.reviewerId, r.reviewerIdUpper]), r.reviewerName, r.classLabel.GetOr(""), fixed4(r.confidence)]
  }

  /** A row of the export: its four cells joined by commas, unquoted. */
  function ExportRow(r: Row, fixed4: real -> string): string {
    Join(ExportCells(r, fixed4), ",")
  }

  function ExportRows(results: seq<Row>, fixed4: real -> string): (rows: seq<string>)
    ensures |rows| == |results|
    ensures forall k :: 0 <= k < |results| ==> rows[k] == ExportRow(results[k], fixed4)
  {
    seq(|results|, k requires 0 <= k < |results| => ExportRow(results[k], fixed4))
  }

  /** `csvContent`: the header line, then one line per result (the whole list, not the filtered one). */
  function ExportCsv(results: seq<Row>, fixed4: real -> string): string {
    Join([HeaderLine()] + ExportRows(results, fixed4), "\n")
  }

  /** No cell of the row holds a line break. */
  predicate SingleLine(r: Row, fixed4: real -> string) {
    forall k :: 0 <= k < 4 ==> Free(ExportCells(r, fixed4)[k], '\n')
  }

  /**
   * When no cell holds a line break, splitting the export on `'\n'` gives
   * back the header line followed by exactly one line per result, in order.
   */
  lemma ExportLines(results: seq<Row>, fixed4: real -> string)
    requires forall k :: 0 <= k < |results| ==> SingleLine(results[k], fixed4)
    ensures Split(ExportCsv(results, fixed4), '\n') == [HeaderLine()] + ExportRows(results, fixed4)
    ensures |Split(ExportCsv(results, fixed4), '\n')| == |results| + 1
  {
    var lines := [HeaderLine()] + ExportRows(results, fixed4);
    JoinFree(Headers, ",", '\n');
    forall k | 0 <= k < |results|
      ensures Free(ExportRow(results[k], fixed4), '\n')
    {
      JoinFree(ExportCells(results[k], fixed4), ",", '\n');
    }
    assert forall k :: 0 <= k < |lines| ==> Free(lines[k], '\n');
    JoinSplit(lines, '\n');
  }

  /**
   * A row whose cells hold no comma splits back into exactly its four cells:
   * the export writes no quoting and no escapes.
   */
  lemma ExportRowCells(r: Row, fixed4: real -> string)
    requires forall k :: 0 <= k < 4 ==> Free(ExportCells(r, fixed4)[k], ',')
    ensures Split(ExportRow(r, fixed4), ',') == ExportCells(r, fixed4)
  {
    JoinSplit(ExportCells(r, fixed4), ',');
  }

  /**
   * The upload's line parser reads an exported row with neither commas nor
   * quotes in its cells as the four cells, trimmed.
   */
  lemma ExportRowParses(r: Row, fixed4: real -> string)
    requires forall k :: 0 <= k < 4 ==> CsvUpload.Plain(ExportCells(r, fixed4)[k])
    ensures CsvUpload.Fields(ExportRow(r, fixed4)) == CsvUpload.TrimAll(ExportCells(r, fixed4))
  {
    CsvUpload.PlainJoinRoundTrip(ExportCells(r, fixed4));
  }
}
