/**
 * The CSV reading done in the browser by the upload component
 * (frontend/src/components/CSVUpload.js): `parseCSVLine`, a character scanner
 * with an in-quotes flag and doubled-quote escapes that trims every field, and
 * the loop that turns the file's lines into reviews.
 *
 * The scanner follows what the code does, not RFC 4180: fields are trimmed,
 * a quote in the middle of a field toggles the quoting, and a line never
 * continues past a newline.
 */
module CsvUpload {
  import opened Text

  /** A review as the upload hands it to the dashboard. */
  datatype Review = Review(id: string, text: string, timestamp: string)

  // ---------------------------------------------------------------------------
  // parseCSVLine
  // ---------------------------------------------------------------------------

  /**
   * The fields the scanner produces from the unread part `rest` of a line,
   * given the field read so far, the quoting state and the fields already
   * finished.
   */
  function Scan(rest: string, current: string, inQuotes: bool, fields: seq<string>): seq<string>
    decreases |rest|
  {
    if rest == [] then fields + [Trim(current)]
    else if rest[0] == '"' then
      if inQuotes && |rest| > 1 && rest[1] == '"' then Scan(rest[2..], current + "\"", inQuotes, fields)
      else Scan(rest[1..], current, !inQuotes, fields)
    else if rest[0] == ',' && !inQuotes then Scan(rest[1..], "", inQuotes, fields + [Trim(current)])
    else Scan(rest[1..], current + [rest[0]], inQuotes, fields)
  }

  /** The fields of a whole line. */
  function Fields(line: string): seq<string> {
    Scan(line, "", false, [])
  }

  /**
   * The number of field separators in `rest`: commas met outside quotes,
   * where a quote toggles the quoting except for a doubled quote inside
   * quotes, which is one literal character.
   */
  function Separators(rest: string, inQuotes: bool): nat
    decreases |rest|
  {
    if rest == [] then 0
    else if rest[0] == '"' then
      if inQuotes && |rest| > 1 && rest[1] == '"' then Separators(rest[2..], inQuotes)
      else Separators(rest[1..], !inQuotes)
    else (if rest[0] == ',' && !inQuotes then 1 else 0) + Separators(rest[1..], inQuotes)
  }

  predicate AllTrimmed(fields: seq<string>) {
    forall k :: 0 <= k < |fields| ==> IsTrimmed(fields[k])
  }

  lemma TrimIsTrimmed(s: string)
    ensures IsTrimmed(Trim(s))
  {
    TrimBySlice(s, IsJsSpace);
  }

  /**
   * The scanner finishes one field per separator plus the last one, and every
   * field it finishes is trimmed.
   */
  lemma {:induction false} ScanShape(rest: string, current: string, inQuotes: bool, fields: seq<string>)
    requires AllTrimmed(fields)
    ensures |Scan(rest, current, inQuotes, fields)| == |fields| + Separators(rest, inQuotes) + 1
    ensures AllTrimmed(Scan(rest, current, inQuotes, fields))
    ensures Scan(rest, current, inQuotes, fields)[..|fields|] == fields
    decreases |rest|
  {
    if rest == [] {
      TrimIsTrimmed(current);
    } else if rest[0] == '"' {
      if inQuotes && |rest| > 1 && rest[1] == '"' {
        ScanShape(rest[2..], current + "\"", inQuotes, fields);
      } else {
        ScanShape(rest[1..], current, !inQuotes, fields);
      }
    } else if rest[0] == ',' && !inQuotes {
      TrimIsTrimmed(current);
      ScanShape(rest[1..], "", inQuotes, fields + [Trim(current)]);
      var r := Scan(rest[1..], "", inQuotes, fields + [Trim(current)]);
      assert r[..|fields|] == r[..|fields| + 1][..|fields|];
    } else {
      ScanShape(rest[1..], current + [rest[0]], inQuotes, fields);
    }
  }

  /**
   * A line has at least one field, one more than it has separators, and each
   * field is trimmed of whitespace at both ends.
   */
  lemma FieldsShape(line: string)
    ensures |Fields(line)| == Separators(line, false) + 1
    ensures |Fields(line)| >= 1
    ensures forall k :: 0 <= k < |Fields(line)| ==> IsTrimmed(Fields(line)[k])
  {
    ScanShape(line, "", false, []);
  }

  /** One step of the scanner at position `i` of a line. */
  lemma ScanAt(line: string, i: nat, current: string, inQuotes: bool, fields: seq<string>)
    requires i < |line|
    ensures Scan(line[i..], current, inQuotes, fields) ==
      if line[i] == '"' then
        if inQuotes && i + 1 < |line| && line[i + 1] == '"' then Scan(line[i + 2..], current + "\"", inQuotes, fields)
        else Scan(line[i + 1..], current, !inQuotes, fields)
      else if line[i] == ',' && !inQuotes then Scan(line[i + 1..], "", inQuotes, fields + [Trim(current)])
      else Scan(line[i + 1..], current + [line[i]], inQuotes, fields)
  {
    assert line[i..][1..] == line[i + 1..];
    if i + 1 < |line| {
      assert line[i..][2..] == line[i + 2..];
    }
  }

  /**
   * `parseCSVLine(line)`: a scan of the characters from left to right; a
   * doubled quote inside quotes adds one quote and skips the second.
   */
  method ParseCsvLine(line: string) returns (result: seq<string>)
    ensures result == Fields(line)
  {
    result := [];
    var current := "";
    var inQuotes := false;
    var i := 0;
    while i < |line|
      invariant 0 <= i <= |line|
      invariant Scan(line[i..], current, inQuotes, result) == Fields(line)
    {
      ScanAt(line, i, current, inQuotes, result);
      var c := line[i];
      if c == '"' {
        if inQuotes && i + 1 < |line| && line[i + 1] == '"' {
          current := current + "\"";
          i := i + 1;
        } else {
          inQuotes := !inQuotes;
        }
      } else if c == ',' && !inQuotes {
        result := result + [Trim(current)];
        current := "";
      } else {
        current := current + [c];
      }
      i := i + 1;
    }
    result := result + [Trim(current)];
  }

  // ---------------------------------------------------------------------------
  // What the scanner does with quotes and commas
  // ---------------------------------------------------------------------------

  /** `s` with each quote doubled. */
  function Escape(s: string): (r: string)
    decreases |s|
  {
    if s == [] then ""
    else if s[0] == '"' then "\"\"" + Escape(s[1..])
    else [s[0]] + Escape(s[1..])
  }

  /** `s` written as a quoted CSV field. */
  function Quoted(s: string): string {
    "\"" + Escape(s) + "\""
  }

  // One step of the scanner on each kind of character.

  lemma ScanQuotePair(rest: string, current: string, fields: seq<string>)
    ensures Scan("\"\"" + rest, current, true, fields) == Scan(rest, current + "\"", true, fields)
  {
    assert ("\"\"" + rest)[2..] == rest;
  }

  lemma ScanToggle(rest: string, current: string, inQuotes: bool, fields: seq<string>)
    requires inQuotes ==> rest == [] || rest[0] != '"'
    ensures Scan("\"" + rest, current, inQuotes, fields) == Scan(rest, current, !inQuotes, fields)
  {
    assert ("\"" + rest)[1..] == rest;
  }

  lemma ScanOrdinary(c: char, rest: string, current: string, inQuotes: bool, fields: seq<string>)
    requires c != '"' && (c != ',' || inQuotes)
    ensures Scan([c] + rest, current, inQuotes, fields) == Scan(rest, current + [c], inQuotes, fields)
  {
    assert ([c] + rest)[1..] == rest;
  }

  lemma ScanComma(rest: string, current: string, fields: seq<string>)
    ensures Scan("," + rest, current, false, fields) == Scan(rest, "", false, fields + [Trim(current)])
  {
    assert ("," + rest)[1..] == rest;
  }

  /** Inside quotes, the escaped form of one character adds exactly that character. */
  lemma ScanEscapedStep(s: string, rest: string, current: string, fields: seq<string>)
    requires s != []
    ensures Scan(Escape(s) + rest, current, true, fields) == Scan(Escape(s[1..]) + rest, current + [s[0]], true, fields)
  {
    var tail := Escape(s[1..]) + rest;
    if s[0] == '"' {
      assert Escape(s) + rest == "\"\"" + tail;
      ScanQuotePair(tail, current, fields);
      assert current + "\"" == current + [s[0]];
    } else {
      assert Escape(s) + rest == [s[0]] + tail;
      ScanOrdinary(s[0], tail, current, true, fields);
    }
  }

  /**
   * Inside quotes, a doubled quote is read as one quote character and a comma
   * as an ordinary character; the closing quote ends the quoting without
   * adding anything.
   */
  lemma {:induction false} ScanEscaped(s: string, rest: string, current: string, fields: seq<string>)
    requires rest == [] || rest[0] != '"'
    ensures Scan(Escape(s) + ("\"" + rest), current, true, fields) == Scan(rest, current + s, false, fields)
    decreases |s|
  {
    if s == [] {
      assert Escape(s) + ("\"" + rest) == "\"" + rest;
      ScanToggle(rest, current, true, fields);
      assert current + s == current;
    } else {
      ScanEscapedStep(s, "\"" + rest, current, fields);
      ScanEscaped(s[1..], rest, current + [s[0]], fields);
      HeadThenTail(current, s);
    }
  }

  /** A quoted field reads back as the trimmed original, whatever commas and quotes it holds. */
  lemma QuotedRoundTrip(s: string)
    ensures Fields(Quoted(s)) == [Trim(s)]
  {
    assert Quoted(s) == "\"" + (Escape(s) + ("\"" + ""));
    ScanToggle(Escape(s) + ("\"" + ""), "", false, []);
    ScanEscaped(s, "", "", []);
    assert "" + s == s;
  }

  /** A field without quotes or commas is copied character by character. */
  predicate Plain(s: string) {
    forall k :: 0 <= k < |s| ==> s[k] != '"' && s[k] != ','
  }

  lemma {:induction false} ScanPlain(p: string, rest: string, current: string, fields: seq<string>)
    requires Plain(p)
    ensures Scan(p + rest, current, false, fields) == Scan(rest, current + p, false, fields)
    decreases |p|
  {
    if p == [] {
      assert p + rest == rest;
      assert current + p == current;
    } else {
      assert p + rest == [p[0]] + (p[1..] + rest);
      ScanOrdinary(p[0], p[1..] + rest, current, false, fields);
      ScanPlain(p[1..], rest, current + [p[0]], fields);
      assert current + [p[0]] + p[1..] == current + p;
    }
  }

  /** Each string trimmed. */
  function TrimAll(parts: seq<string>): seq<string> {
    if parts == [] then [] else [Trim(parts[0])] + TrimAll(parts[1..])
  }

  /**
   * Plain fields joined by commas read back as the same fields, trimmed: the
   * scanner inverts the comma-join.
   */
  lemma PlainJoinRoundTrip(parts: seq<string>)
    requires |parts| >= 1
    requires forall k :: 0 <= k < |parts| ==> Plain(parts[k])
    ensures Fields(Join(parts, ",")) == TrimAll(parts)
  {
    ScanPlainJoin(parts, []);
    EmptyAppend(TrimAll(parts));
  }

  lemma {:induction false} ScanPlainJoin(parts: seq<string>, fields: seq<string>)
    requires |parts| >= 1
    requires forall k :: 0 <= k < |parts| ==> Plain(parts[k])
    ensures Scan(Join(parts, ","), "", false, fields) == fields + TrimAll(parts)
    decreases |parts|
  {
    if |parts| == 1 {
      ScanPlainLast(parts, fields);
    } else {
      ScanPlainField(parts, fields);
      ScanPlainJoin(parts[1..], fields + [Trim(parts[0])]);
      AppendCons(fields, Trim(parts[0]), TrimAll(parts[1..]));
    }
  }

  lemma HeadThenTail<T>(a: seq<T>, b: seq<T>)
    requires b != []
    ensures a + [b[0]] + b[1..] == a + b
  {
    assert b == [b[0]] + b[1..];
  }

  lemma EmptyAppend<T>(a: seq<T>)
    ensures [] + a == a
  {
  }

  lemma AppendCons<T>(a: seq<T>, x: T, b: seq<T>)
    ensures a + [x] + b == a + ([x] + b)
  {
  }

  /** A single plain field is read to the end of the line and finished. */
  lemma ScanPlainLast(parts: seq<string>, fields: seq<string>)
    requires |parts| == 1 && Plain(parts[0])
    ensures Scan(Join(parts, ","), "", false, fields) == fields + TrimAll(parts)
  {
    assert Join(parts, ",") == parts[0] + "";
    ScanPlain(parts[0], "", "", fields);
    assert "" + parts[0] == parts[0];
    assert TrimAll(parts) == [Trim(parts[0])];
  }

  /** The first of several plain fields is read up to its comma and finished. */
  lemma ScanPlainField(parts: seq<string>, fields: seq<string>)
    requires |parts| >= 2 && Plain(parts[0])
    ensures Scan(Join(parts, ","), "", false, fields) == Scan(Join(parts[1..], ","), "", false, fields + [Trim(parts[0])])
  {
    var tail := Join(parts[1..], ",");
    assert Join(parts, ",") == parts[0] + ("," + tail);
    ScanPlain(parts[0], "," + tail, "", fields);
    assert "" + parts[0] == parts[0];
    ScanComma(tail, parts[0], fields);
  }

  // ---------------------------------------------------------------------------
  // From lines to reviews
  // ---------------------------------------------------------------------------

  /**
   * The review built from the fields of line `i`: the id is field 0, or the
   * fallback id of the line index; the text is field 5, else field 1; the
   * timestamp is field 8, else the current time `now`.
   */
  function ReviewOf(values: seq<string>, i: nat, now: string): (r: Review)
    requires |values| >= 2
    ensures r.id != ""
    ensures values[0] != "" ==> r.id == values[0]
    ensures values[0] == "" ==> r.id == DefaultId(i)
    ensures r.text == if |values| > 5 && values[5] != "" then values[5] else values[1]
    ensures r.timestamp == if |values| > 8 && values[8] != "" then values[8] else now
  {
    Review(
      if values[0] != "" then values[0] else DefaultId(i),
      if |values| > 5 && values[5] != "" then values[5] else values[1],
      if |values| > 8 && values[8] != "" then values[8] else now)
  }

  /** A line that yields a review: not blank after trimming, and with at least two fields. */
  predicate Kept(line: string) {
    Trim(line) != "" && |Fields(line)| >= 2
  }

  /** What line `i` contributes: its review when it is kept, else nothing. */
  function LineReviews(line: string, i: nat, now: string): seq<Review> {
    if Kept(line) then [ReviewOf(Fields(line), i, now)] else []
  }

  lemma LineReviewsBlank(line: string, i: nat, now: string)
    requires Trim(line) == ""
    ensures LineReviews(line, i, now) == []
  {
  }

  lemma LineReviewsKept(line: string, i: nat, now: string)
    requires Trim(line) != ""
    ensures LineReviews(line, i, now) == if |Fields(line)| >= 2 then [ReviewOf(Fields(line), i, now)] else []
  {
  }

  /** The reviews from lines 1 up to `n - 1`, in order; line 0 is the header. */
  function ReviewsUpTo(lines: seq<string>, n: nat, now: string): (reviews: seq<Review>)
    requires n <= |lines|
    ensures |reviews| <= if n == 0 then 0 else n - 1
    decreases n
  {
    if n <= 1 then [] else ReviewsUpTo(lines, n - 1, now) + LineReviews(lines[n - 1], n - 1, now)
  }

  lemma ReviewsUpToStep(lines: seq<string>, i: nat, now: string, reviews: seq<Review>, found: seq<Review>)
    requires 1 <= i < |lines|
    requires reviews == ReviewsUpTo(lines, i, now) && found == LineReviews(lines[i], i, now)
    ensures reviews + found == ReviewsUpTo(lines, i + 1, now)
  {
  }

  /**
   * Every review comes from a kept line other than the header, and every kept
   * line other than the header gives its review.
   */
  lemma ReviewsFromKeptLines(lines: seq<string>, n: nat, now: string)
    requires n <= |lines|
    ensures forall r :: r in ReviewsUpTo(lines, n, now) ==>
      exists i :: 1 <= i < n && Kept(lines[i]) && r == ReviewOf(Fields(lines[i]), i, now)
    ensures forall i :: 1 <= i < n && Kept(lines[i]) ==> ReviewOf(Fields(lines[i]), i, now) in ReviewsUpTo(lines, n, now)
  {
    forall r | r in ReviewsUpTo(lines, n, now)
      ensures exists i :: 1 <= i < n && Kept(lines[i]) && r == ReviewOf(Fields(lines[i]), i, now)
    {
      var i := ReviewSource(lines, n, now, r);
    }
    forall i | 1 <= i < n && Kept(lines[i])
      ensures ReviewOf(Fields(lines[i]), i, now) in ReviewsUpTo(lines, n, now)
    {
      KeptLineGivesReview(lines, n, now, i);
    }
  }

  /** The line a review was built from. */
  lemma {:induction false} ReviewSource(lines: seq<string>, n: nat, now: string, r: Review) returns (i: nat)
    requires n <= |lines| && r in ReviewsUpTo(lines, n, now)
    ensures 1 <= i < n && Kept(lines[i]) && r == ReviewOf(Fields(lines[i]), i, now)
    decreases n
  {
    var earlier := ReviewsUpTo(lines, n - 1, now);
    var last := LineReviews(lines[n - 1], n - 1, now);
    assert ReviewsUpTo(lines, n, now) == earlier + last;
    if r in earlier {
      i := ReviewSource(lines, n - 1, now, r);
    } else {
      i := n - 1;
    }
  }

  lemma {:induction false} KeptLineGivesReview(lines: seq<string>, n: nat, now: string, i: nat)
    requires 1 <= i < n <= |lines| && Kept(lines[i])
    ensures ReviewOf(Fields(lines[i]), i, now) in ReviewsUpTo(lines, n, now)
    decreases n
  {
    var earlier := ReviewsUpTo(lines, n - 1, now);
    var last := LineReviews(lines[n - 1], n - 1, now);
    assert ReviewsUpTo(lines, n, now) == earlier + last;
    if i < n - 1 {
      KeptLineGivesReview(lines, n - 1, now, i);
    } else {
      assert last == [ReviewOf(Fields(lines[i]), i, now)];
    }
  }

  /** Two reviews that took the fallback id come from the same line. */
  lemma FallbackIdsDistinct(lines: seq<string>, i: nat, j: nat, now: string)
    requires 1 <= i < |lines| && 1 <= j < |lines| && Kept(lines[i]) && Kept(lines[j])
    requires Fields(lines[i])[0] == "" && Fields(lines[j])[0] == ""
    requires ReviewOf(Fields(lines[i]), i, now).id == ReviewOf(Fields(lines[j]), j, now).id
    ensures i == j
  {
    DefaultIdInjective(i, j);
  }

  /**
   * The body of the line loop: a blank line is skipped before it is parsed;
   * a parsed line with fewer than two fields is skipped too.
   */
  method ReviewsOfLine(line: string, i: nat, now: string) returns (found: seq<Review>)
    ensures found == LineReviews(line, i, now)
  {
    found := [];
    if Trim(line) != "" {
      var values := ParseCsvLine(line);
      if |values| >= 2 {
        found := [ReviewOf(values, i, now)];
      }
      LineReviewsKept(line, i, now);
    } else {
      LineReviewsBlank(line, i, now);
    }
  }

  /**
   * The `reader.onload` handler: split the text on `'\n'`, skip line 0, and
   * push a review for each line that is not blank and has two fields or more.
   */
  method ReviewsFromCsv(csvText: string, now: string) returns (reviews: seq<Review>)
    ensures reviews == ReviewsUpTo(Split(csvText, '\n'), |Split(csvText, '\n')|, now)
    ensures |reviews| < |Split(csvText, '\n')|
  {
    var lines := Split(csvText, '\n');
    reviews := ReviewsFromLines(lines, now);
  }

  /** One turn of the line loop: line `i`'s review, if any, follows the earlier ones. */
  method AddLine(lines: seq<string>, i: nat, now: string, reviews: seq<Review>) returns (more: seq<Review>)
    requires 1 <= i < |lines| && reviews == ReviewsUpTo(lines, i, now)
    ensures more == ReviewsUpTo(lines, i + 1, now)
  {
    var found := ReviewsOfLine(lines[i], i, now);
    ReviewsUpToStep(lines, i, now, reviews, found);
    more := reviews + found;
  }

  /** The loop over the lines after the header. */
  method ReviewsFromLines(lines: seq<string>, now: string) returns (reviews: seq<Review>)
    requires |lines| >= 1
    ensures reviews == ReviewsUpTo(lines, |lines|, now)
  {
    reviews := [];
    var i := 1;
    while i < |lines|
      invariant 1 <= i <= |lines|
      invariant reviews == ReviewsUpTo(lines, i, now)
    {
      reviews := AddLine(lines, i, now, reviews);
      i := i + 1;
    }
  }
}
