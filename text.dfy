/**
 * String helpers the application relies on from its runtimes: JavaScript's
 * `trim`, `toLowerCase`, `includes`, `split`, `join`, `padStart` and
 * `String(n)`, and Python's `str.strip`.
 */
module Text {

  // ---------------------------------------------------------------------------
  // Whitespace and trimming
  // ---------------------------------------------------------------------------

  /** The characters JavaScript's `String.prototype.trim` removes. */
  predicate IsJsSpace(c: char) {
    || c == ' ' || c == '\t' || c == '\n' || c == '\r'
    || c == '\U{000B}' || c == '\U{000C}' || c == '\U{00A0}' || c == '\U{1680}'
    || ('\U{2000}' <= c <= '\U{200A}')
    || c == '\U{2028}' || c == '\U{2029}' || c == '\U{202F}' || c == '\U{205F}'
    || c == '\U{3000}' || c == '\U{FEFF}'
  }

  /** The characters Python's `str.strip()` removes (those for which `str.isspace` holds). */
  predicate IsPySpace(c: char) {
    || c == ' ' || c == '\t' || c == '\n' || c == '\r'
    || c == '\U{000B}' || c == '\U{000C}'
    || ('\U{001C}' <= c <= '\U{001F}')
    || c == '\U{0085}' || c == '\U{00A0}' || c == '\U{1680}'
    || ('\U{2000}' <= c <= '\U{200A}')
    || c == '\U{2028}' || c == '\U{2029}' || c == '\U{202F}' || c == '\U{205F}'
    || c == '\U{3000}'
  }

  predicate AllSpace(s: string, space: char -> bool) {
    forall k :: 0 <= k < |s| ==> space(s[k])
  }

  /** Neither end of `s` is a space character. */
  predicate IsTrimmedBy(s: string, space: char -> bool) {
    s == [] || (!space(s[0]) && !space(s[|s| - 1]))
  }

  function TrimStart(s: string, space: char -> bool): string
    decreases |s|
  {
    if s != [] && space(s[0]) then TrimStart(s[1..], space) else s
  }

  function TrimEnd(s: string, space: char -> bool): string
    decreases |s|
  {
    if s != [] && space(s[|s| - 1]) then TrimEnd(s[..|s| - 1], space) else s
  }

  /** `TrimStart` drops a prefix of spaces and stops at the first other character. */
  lemma {:induction false} TrimStartDrops(s: string, space: char -> bool)
    ensures var r := TrimStart(s, space);
      |r| <= |s| && r == s[|s| - |r|..] && AllSpace(s[..|s| - |r|], space) && (r == [] || !space(r[0]))
    decreases |s|
  {
    if s != [] && space(s[0]) {
      TrimStartDrops(s[1..], space);
      var r := TrimStart(s, space);
      assert s[..|s| - |r|] == [s[0]] + s[1..][..|s| - 1 - |r|];
    }
  }

  /** `TrimEnd` drops a suffix of spaces and stops at the last other character. */
  lemma {:induction false} TrimEndDrops(s: string, space: char -> bool)
    ensures var r := TrimEnd(s, space);
      |r| <= |s| && r == s[..|r|] && AllSpace(s[|r|..], space) && (r == [] || !space(r[|r| - 1]))
    decreases |s|
  {
    if s != [] && space(s[|s| - 1]) {
      TrimEndDrops(s[..|s| - 1], space);
      var r := TrimEnd(s, space);
      assert s[|r|..] == s[..|s| - 1][|r|..] + [s[|s| - 1]];
    }
  }

  /** `s` without its leading and trailing space characters. */
  function TrimBy(s: string, space: char -> bool): string {
    TrimEnd(TrimStart(s, space), space)
  }

  /**
   * Trimming keeps a contiguous slice of the input, removes only space
   * characters, and leaves no space character at either end.
   */
  lemma TrimBySlice(s: string, space: char -> bool)
    ensures IsTrimmedBy(TrimBy(s, space), space)
    ensures exists i, j :: 0 <= i <= j <= |s| && TrimBy(s, space) == s[i..j]
                           && AllSpace(s[..i], space) && AllSpace(s[j..], space)
  {
    var t := TrimStart(s, space);
    var r := TrimEnd(t, space);
    TrimStartDrops(s, space);
    TrimEndDrops(t, space);
    var i := |s| - |t|;
    var j := i + |r|;
    assert r == s[i..j];
    assert s[j..] == t[|r|..];
    if r != [] {
      assert r[0] == t[0];
    }
  }

  /** A string with nothing to trim is its own trimming. */
  lemma {:induction false} TrimByTrimmed(s: string, space: char -> bool)
    requires IsTrimmedBy(s, space)
    ensures TrimBy(s, space) == s
  {
  }

  /** Trimming twice is trimming once. */
  lemma TrimByIdempotent(s: string, space: char -> bool)
    ensures TrimBy(TrimBy(s, space), space) == TrimBy(s, space)
  {
    TrimBySlice(s, space);
    TrimByTrimmed(TrimBy(s, space), space);
  }

  /** JavaScript's `s.trim()`. */
  function Trim(s: string): string {
    TrimBy(s, IsJsSpace)
  }

  /** Python's `s.strip()`. */
  function Strip(s: string): string {
    TrimBy(s, IsPySpace)
  }

  predicate IsTrimmed(s: string) {
    IsTrimmedBy(s, IsJsSpace)
  }

  // ---------------------------------------------------------------------------
  // Case and substrings
  // ---------------------------------------------------------------------------

  function LowerChar(c: char): char {
    if 'A' <= c <= 'Z' then (c as int - 'A' as int + 'a' as int) as char else c
  }

  /** `s.toLowerCase()` on the ASCII letters. */
  function ToLower(s: string): (r: string)
    ensures |r| == |s|
    ensures forall k :: 0 <= k < |s| ==> r[k] == LowerChar(s[k])
  {
    seq(|s|, k requires 0 <= k < |s| => LowerChar(s[k]))
  }

  predicate IsPrefix(t: string, s: string) {
    |t| <= |s| && s[..|t|] == t
  }

  /** `t` occurs in `s` starting at position `i`. */
  predicate OccursAt(s: string, t: string, i: int) {
    0 <= i && i + |t| <= |s| && s[i..i + |t|] == t
  }

  /** `s.includes(t)`, scanning start positions left to right. */
  predicate Contains(s: string, t: string)
    decreases |s|
  {
    IsPrefix(t, s) || (s != [] && Contains(s[1..], t))
  }

  /** `Contains` holds exactly when `t` occurs at some position of `s`. */
  lemma {:induction false} ContainsIff(s: string, t: string)
    ensures Contains(s, t) <==> exists i :: OccursAt(s, t, i)
    decreases |s|
  {
    if s != [] {
      ContainsIff(s[1..], t);
      if Contains(s[1..], t) {
        var i :| OccursAt(s[1..], t, i);
        assert s[i + 1..i + 1 + |t|] == s[1..][i..i + |t|];
        assert OccursAt(s, t, i + 1);
      }
      if IsPrefix(t, s) {
        assert OccursAt(s, t, 0);
      }
      if !IsPrefix(t, s) && exists i :: OccursAt(s, t, i) {
        var i :| OccursAt(s, t, i);
        assert i != 0;
        assert s[1..][i - 1..i - 1 + |t|] == s[i..i + |t|];
        assert OccursAt(s[1..], t, i - 1);
      }
    } else {
      if t == [] {
        assert OccursAt(s, t, 0);
      }
      if exists i :: OccursAt(s, t, i) {
        var i :| OccursAt(s, t, i);
        assert t == [];
        assert IsPrefix(t, s);
      }
    }
  }

  /** Every string contains the empty string. */
  lemma ContainsEmpty(s: string)
    ensures Contains(s, "")
  {
  }

  /** A string contains itself. */
  lemma ContainsSelf(s: string)
    ensures Contains(s, s)
  {
  }

  /** The number of occurrences of the character `c` in `s`. */
  function CountChar(s: string, c: char): (n: nat)
    ensures n <= |s|
  {
    if s == [] then 0 else (if s[0] == c then 1 else 0) + CountChar(s[1..], c)
  }

  /** A string that contains `[c, c, c]` has at least three occurrences of `c`. */
  lemma {:induction false} CountCharTriple(s: string, c: char)
    requires Contains(s, [c, c, c])
    ensures CountChar(s, c) >= 3
    decreases |s|
  {
    if IsPrefix([c, c, c], s) {
      assert s[0] == c && s[1] == c && s[2] == c;
      assert s[1..][0] == c && s[1..][1..][0] == c;
    } else {
      CountCharTriple(s[1..], c);
    }
  }

  // ---------------------------------------------------------------------------
  // Joining and splitting
  // ---------------------------------------------------------------------------

  /** `parts.join(sep)`: the empty list gives the empty string. */
  function Join(parts: seq<string>, sep: string): string
    decreases |parts|
  {
    if parts == [] then ""
    else if |parts| == 1 then parts[0]
    else parts[0] + sep + Join(parts[1..], sep)
  }

  /** Pieces and separator without `c` join to a string without `c`. */
  lemma {:induction false} JoinFree(parts: seq<string>, sep: string, c: char)
    requires forall k :: 0 <= k < |parts| ==> Free(parts[k], c)
    requires Free(sep, c)
    ensures Free(Join(parts, sep), c)
    decreases |parts|
  {
    if |parts| > 1 {
      JoinFree(parts[1..], sep, c);
      FreeConcat(parts[0], sep, c);
      FreeConcat(parts[0] + sep, Join(parts[1..], sep), c);
    }
  }

  lemma FreeConcat(a: string, b: string, c: char)
    requires Free(a, c) && Free(b, c)
    ensures Free(a + b, c)
  {
    assert forall k :: |a| <= k < |a + b| ==> (a + b)[k] == b[k - |a|];
  }

  /** `s.split(sep)` on a one-character separator: never empty. */
  function Split(s: string, sep: char): (r: seq<string>)
    ensures |r| >= 1
    decreases |s|
  {
    if s == [] then [""]
    else
      var rest := Split(s[1..], sep);
      if s[0] == sep then [""] + rest
      else [[s[0]] + rest[0]] + rest[1..]
  }

  predicate Free(s: string, c: char) {
    forall k :: 0 <= k < |s| ==> s[k] != c
  }

  /** No piece of a split holds the separator, and joining the pieces gives the input back. */
  lemma {:induction false} SplitJoin(s: string, sep: char)
    ensures forall k :: 0 <= k < |Split(s, sep)| ==> Free(Split(s, sep)[k], sep)
    ensures Join(Split(s, sep), [sep]) == s
    decreases |s|
  {
    if s != [] {
      SplitJoin(s[1..], sep);
      var rest := Split(s[1..], sep);
      if s[0] == sep {
        assert [""] + rest == [""] + rest;
        assert ([""] + rest)[1..] == rest;
      } else {
        var r := [[s[0]] + rest[0]] + rest[1..];
        assert r[1..] == rest[1..];
        if |rest| > 1 {
          assert Join(rest, [sep]) == rest[0] + [sep] + Join(rest[1..], [sep]);
        }
        assert forall k :: 1 <= k < |r| ==> r[k] == rest[k];
      }
    }
  }

  /** Splitting a join of separator-free pieces gives the pieces back. */
  lemma {:induction false} JoinSplit(parts: seq<string>, sep: char)
    requires |parts| >= 1
    requires forall k :: 0 <= k < |parts| ==> Free(parts[k], sep)
    ensures Split(Join(parts, [sep]), sep) == parts
    decreases |parts|
  {
    if |parts| == 1 {
      SplitFree(parts[0], sep, "", []);
      assert parts[0] + "" == parts[0];
    } else {
      JoinSplit(parts[1..], sep);
      var tail := Join(parts[1..], [sep]);
      assert Join(parts, [sep]) == parts[0] + ([sep] + tail);
      SplitFree(parts[0], sep, [sep] + tail, parts[1..]);
    }
  }

  /** A separator-free prefix glues onto the first piece of whatever follows. */
  lemma {:induction false} SplitFree(p: string, sep: char, rest: string, tail: seq<string>)
    requires Free(p, sep)
    requires rest == [] ==> tail == []
    requires rest != [] ==> rest[0] == sep && Split(rest[1..], sep) == tail
    ensures Split(p + rest, sep) == [p] + tail
    decreases |p|
  {
    if p == [] {
      assert p + rest == rest;
      if rest != [] {
        assert Split(rest, sep) == [""] + Split(rest[1..], sep);
      }
    } else {
      SplitFree(p[1..], sep, rest, tail);
      assert (p + rest)[1..] == p[1..] + rest;
      assert [p[0]] + p[1..] == p;
    }
  }

  // ---------------------------------------------------------------------------
  // Decimal numbers and padding
  // ---------------------------------------------------------------------------

  predicate IsDigit(c: char) {
    '0' <= c <= '9'
  }

  function Digit(d: nat): (c: char)
    requires d < 10
    ensures IsDigit(c)
  {
    ('0' as int + d) as char
  }

  function DigitValue(c: char): nat
    requires IsDigit(c)
  {
    c as int - '0' as int
  }

  /** `String(n)` for a non-negative integer: its decimal digits, no leading zero. */
  function NatToDecimal(n: nat): (r: string)
    ensures |r| >= 1
    ensures forall k :: 0 <= k < |r| ==> IsDigit(r[k])
    decreases n
  {
    if n < 10 then [Digit(n)] else NatToDecimal(n / 10) + [Digit(n % 10)]
  }

  /** The value of a string of decimal digits (leading zeros add nothing). */
  function DecimalValue(s: string): nat
    requires forall k :: 0 <= k < |s| ==> IsDigit(s[k])
    decreases |s|
  {
    if s == [] then 0 else DecimalValue(s[..|s| - 1]) * 10 + DigitValue(s[|s| - 1])
  }

  /** Reading back the decimal form of `n` gives `n`. */
  lemma {:induction false} DecimalRoundTrip(n: nat)
    ensures DecimalValue(NatToDecimal(n)) == n
    decreases n
  {
    if n >= 10 {
      DecimalRoundTrip(n / 10);
      var r := NatToDecimal(n);
      assert r[..|r| - 1] == NatToDecimal(n / 10);
    }
  }

  function Repeat(c: char, n: nat): (r: string)
    ensures |r| == n && forall k :: 0 <= k < n ==> r[k] == c
  {
    seq(n, k => c)
  }

  /** `s.padStart(width, c)`: `s` left-filled with `c` up to `width` characters. */
  function PadStart(s: string, width: nat, c: char): (r: string)
    ensures |r| == if |s| >= width then |s| else width
    ensures r[|r| - |s|..] == s
    ensures forall k :: 0 <= k < |r| - |s| ==> r[k] == c
  {
    if |s| >= width then s else Repeat(c, width - |s|) + s
  }

  /** Leading zeros do not change the value of a digit string. */
  lemma {:induction false} DecimalValueZeros(n: nat, s: string)
    requires forall k :: 0 <= k < |s| ==> IsDigit(s[k])
    ensures DecimalValue(Repeat('0', n) + s) == DecimalValue(s)
    decreases |s|
  {
    var z := Repeat('0', n);
    if s == [] {
      assert z + s == z;
      ZerosValue(n);
    } else {
      var t := z + s;
      assert t[..|t| - 1] == z + s[..|s| - 1];
      DecimalValueZeros(n, s[..|s| - 1]);
    }
  }

  lemma {:induction false} ZerosValue(n: nat)
    ensures DecimalValue(Repeat('0', n)) == 0
  {
    if n > 0 {
      assert Repeat('0', n)[..n - 1] == Repeat('0', n - 1);
      ZerosValue(n - 1);
    }
  }

  /** The fallback review id used when a review has none: `'R' + String(k).padStart(3, '0')`. */
  function DefaultId(k: nat): (r: string)
    ensures |r| >= 4 && r[0] == 'R'
  {
    "R" + PadStart(NatToDecimal(k), 3, '0')
  }

  /** Different indices never share a fallback id. */
  lemma DefaultIdInjective(j: nat, k: nat)
    requires DefaultId(j) == DefaultId(k)
    ensures j == k
  {
    var pj := PadStart(NatToDecimal(j), 3, '0');
    var pk := PadStart(NatToDecimal(k), 3, '0');
    assert pj == DefaultId(j)[1..] && pk == DefaultId(k)[1..];
    PaddedValue(j);
    PaddedValue(k);
  }

  lemma PaddedValue(n: nat)
    ensures forall k :: 0 <= k < |PadStart(NatToDecimal(n), 3, '0')| ==> IsDigit(PadStart(NatToDecimal(n), 3, '0')[k])
    ensures DecimalValue(PadStart(NatToDecimal(n), 3, '0')) == n
  {
    var d := NatToDecimal(n);
    DecimalRoundTrip(n);
    if |d| < 3 {
      DecimalValueZeros(3 - |d|, d);
    }
  }
}
