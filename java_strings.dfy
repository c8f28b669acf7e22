/**
 * The pieces of the Java library the diagnostic translator relies on, with Java's own
 * semantics: `String.split("\n")`, `String.trim()` and `Integer.valueOf` on a string of
 * ASCII digits.
 */
module JavaStrings {
  import opened Common

  /** Integer.MAX_VALUE: the largest value Integer.valueOf accepts. */
  const MaxInt: int := 2147483647

  // ---------------------------------------------------------------------------------------
  // Splitting on '\n'

  /** All pieces of `s` between newline characters, empty pieces included. */
  function Segments(s: string): (r: seq<string>)
    ensures |r| >= 1
    ensures forall i :: 0 <= i < |r| ==> '\n' !in r[i]
    ensures '\n' !in s ==> r == [s]
    decreases |s|
  {
    if s == [] then [[]]
    else
      var rest := Segments(s[1..]);
      if s[0] == '\n' then [[]] + rest
      else
        assert s == [s[0]] + s[1..];
        assert '\n' !in s ==> '\n' !in s[1..];
        [[s[0]] + rest[0]] + rest[1..]
  }

  /** The inverse of Segments: the pieces glued back with '\n'. */
  function Join(lines: seq<string>): (r: string)
    requires |lines| >= 1
  {
    if |lines| == 1 then lines[0] else lines[0] + "\n" + Join(lines[1..])
  }

  lemma {:induction false} JoinSegments(s: string)
    ensures Join(Segments(s)) == s
    decreases |s|
  {
    if s != [] {
      JoinSegments(s[1..]);
      var rest := Segments(s[1..]);
      if s[0] == '\n' {
        assert ([[]] + rest)[1..] == rest;
      } else {
        var r := [[s[0]] + rest[0]] + rest[1..];
        assert r[1..] == rest[1..];
        if |rest| > 1 {
          assert Join(rest) == rest[0] + "\n" + Join(rest[1..]);
        }
        assert s == [s[0]] + s[1..];
      }
    }
  }

  /** Prepending newline-free text to a string extends its first segment. */
  lemma {:induction false} SegmentsPrepend(x: string, s: string)
    requires '\n' !in x
    ensures Segments(x + s) == [x + Segments(s)[0]] + Segments(s)[1..]
    decreases |x|
  {
    if x != [] {
      assert x == [x[0]] + x[1..];
      assert '\n' !in x[1..];
      SegmentsPrepend(x[1..], s);
      var r := Segments(x[1..] + s);
      assert (x + s)[1..] == x[1..] + s;
      assert (x + s)[0] == x[0] != '\n';
      assert Segments(x + s) == [[x[0]] + r[0]] + r[1..];
      var t := Segments(s);
      assert r[0] == x[1..] + t[0] && r[1..] == t[1..];
      assert [x[0]] + (x[1..] + t[0]) == x + t[0];
    } else {
      assert x + s == s;
      assert x + Segments(s)[0] == Segments(s)[0];
      assert Segments(s) == [Segments(s)[0]] + Segments(s)[1..];
    }
  }

  /** A leading newline adds an empty first segment. */
  lemma SegmentsNewline(rest: string)
    ensures Segments("\n" + rest) == [[]] + Segments(rest)
  {
    assert ("\n" + rest)[0] == '\n';
    assert ("\n" + rest)[1..] == rest;
  }

  lemma {:induction false} SegmentsJoin(lines: seq<string>)
    requires |lines| >= 1
    requires forall i :: 0 <= i < |lines| ==> '\n' !in lines[i]
    ensures Segments(Join(lines)) == lines
    decreases |lines|
  {
    if |lines| == 1 {
      assert lines == [lines[0]];
    } else {
      var rest := Join(lines[1..]);
      SegmentsJoin(lines[1..]);
      SegmentsNewline(rest);
      SegmentsPrepend(lines[0], "\n" + rest);
      assert Join(lines) == lines[0] + ("\n" + rest);
      assert lines[0] + [] == lines[0];
      assert lines == [lines[0]] + lines[1..];
    }
  }

  /** A character that is not a newline lies in some non-empty segment. */
  lemma {:induction false} NonNewlineMakesSegment(s: string, i: nat)
    requires i < |s| && s[i] != '\n'
    ensures exists k :: 0 <= k < |Segments(s)| && Segments(s)[k] != ""
    decreases |s|
  {
    var rest := Segments(s[1..]);
    if s[0] != '\n' {
      assert Segments(s)[0] == [s[0]] + rest[0];
    } else {
      NonNewlineMakesSegment(s[1..], i - 1);
      var k :| 0 <= k < |rest| && rest[k] != "";
      assert Segments(s)[k + 1] == rest[k];
    }
  }

  /** A text made of newlines only has empty segments only. */
  lemma {:induction false} NewlinesMakeEmptySegments(s: string)
    requires forall i :: 0 <= i < |s| ==> s[i] == '\n'
    ensures forall k :: 0 <= k < |Segments(s)| ==> Segments(s)[k] == ""
    decreases |s|
  {
    if s != [] {
      NewlinesMakeEmptySegments(s[1..]);
    }
  }

  /** The segments with the empty ones at the end removed. */
  function DropTrailingEmpty(segs: seq<string>): (r: seq<string>)
    ensures |r| <= |segs| && r == segs[..|r|]
    ensures forall i :: |r| <= i < |segs| ==> segs[i] == ""
    ensures r == [] || r[|r| - 1] != ""
  {
    if |segs| > 0 && segs[|segs| - 1] == "" then DropTrailingEmpty(segs[..|segs| - 1]) else segs
  }

  /**
   * Java's `s.split("\n")`: the segments with trailing empty strings removed, except that
   * a text without any newline comes back whole, even when it is empty.
   */
  function Split(s: string): (r: seq<string>)
    ensures |r| <= |Segments(s)| && r == Segments(s)[..|r|]
    ensures forall i :: |r| <= i < |Segments(s)| ==> Segments(s)[i] == ""
    ensures '\n' !in s ==> r == [s]
    ensures '\n' in s ==> r == [] || r[|r| - 1] != ""
  {
    if '\n' !in s then [s] else DropTrailingEmpty(Segments(s))
  }

  // ---------------------------------------------------------------------------------------
  // Trimming

  /** The characters String.trim() removes: every code point up to U+0020. */
  predicate IsBlank(c: char) {
    c <= ' '
  }

  /** No blank at either end. */
  predicate Trimmed(s: string) {
    s == "" || (!IsBlank(s[0]) && !IsBlank(s[|s| - 1]))
  }

  function SkipBlanks(s: string, i: nat): (a: nat)
    requires i <= |s|
    ensures i <= a <= |s|
    ensures forall j :: i <= j < a ==> IsBlank(s[j])
    ensures a < |s| ==> !IsBlank(s[a])
    decreases |s| - i
  {
    if i < |s| && IsBlank(s[i]) then SkipBlanks(s, i + 1) else i
  }

  function SkipTrailingBlanks(s: string, a: nat, b: nat): (e: nat)
    requires a <= b <= |s|
    ensures a <= e <= b
    ensures forall j :: e <= j < b ==> IsBlank(s[j])
    ensures e > a ==> !IsBlank(s[e - 1])
    decreases b - a
  {
    if a < b && IsBlank(s[b - 1]) then SkipTrailingBlanks(s, a, b - 1) else b
  }

  /** Java's String.trim(). */
  function Trim(s: string): (r: string)
    ensures Trimmed(r)
    ensures |r| <= |s|
    ensures r == "" <==> forall i :: 0 <= i < |s| ==> IsBlank(s[i])
    ensures forall i :: 0 <= i < |r| ==> r[i] in s
  {
    var a := SkipBlanks(s, 0);
    var e := SkipTrailingBlanks(s, a, |s|);
    assert e == a ==> forall i :: 0 <= i < |s| ==> IsBlank(s[i]);
    s[a..e]
  }

  /** Trim leaves a trimmed string alone. */
  lemma TrimTrimmed(s: string)
    requires Trimmed(s)
    ensures Trim(s) == s
  {
    if s != "" {
      assert SkipBlanks(s, 0) == 0;
      assert SkipTrailingBlanks(s, 0, |s|) == |s|;
    }
  }

  /** Trim removes exactly the blank padding around a trimmed core. */
  lemma TrimPadded(lead: string, core: string, trail: string)
    requires forall i :: 0 <= i < |lead| ==> IsBlank(lead[i])
    requires forall i :: 0 <= i < |trail| ==> IsBlank(trail[i])
    requires core != "" && Trimmed(core)
    ensures Trim(lead + core + trail) == core
  {
    var s := lead + core + trail;
    var a := SkipBlanks(s, 0);
    assert s[|lead|] == core[0];
    assert a == |lead|;
    var e := SkipTrailingBlanks(s, a, |s|);
    assert s[|lead| + |core| - 1] == core[|core| - 1];
    assert e == |lead| + |core|;
    assert s[a..e] == core;
  }

  // ---------------------------------------------------------------------------------------
  // Decimal digits and Integer.valueOf

  /** The regular-expression class [0-9]: ASCII digits only. */
  predicate IsDigit(c: char) {
    '0' <= c <= '9'
  }

  predicate AllDigits(s: string) {
    forall i :: 0 <= i < |s| ==> IsDigit(s[i])
  }

  /** The number a digit string denotes, leading zeros allowed. */
  function DigitsValue(d: string): (n: nat)
    requires AllDigits(d)
  {
    if d == [] then 0 else DigitsValue(d[..|d| - 1]) * 10 + (d[|d| - 1] as int - '0' as int)
  }

  /** The canonical decimal spelling of `n`. */
  function Decimal(n: nat): (d: string)
    ensures |d| >= 1 && AllDigits(d)
  {
    var last := ('0' as int + n % 10) as char;
    if n < 10 then [last] else Decimal(n / 10) + [last]
  }

  lemma {:induction false} DecimalValue(n: nat)
    ensures DigitsValue(Decimal(n)) == n
  {
    if n >= 10 {
      DecimalValue(n / 10);
      var d := Decimal(n);
      assert d[..|d| - 1] == Decimal(n / 10);
    }
  }

  /**
   * Java's Integer.valueOf on a digit string: it throws (None here) on the empty string
   * and on a value above Integer.MAX_VALUE.
   */
  function IntegerValueOf(d: string): (r: Option<int>)
    requires AllDigits(d)
    ensures r.Some? <==> d != "" && DigitsValue(d) <= MaxInt
    ensures r.Some? ==> 0 <= r.value <= MaxInt && r.value == DigitsValue(d)
  {
    if d == [] || DigitsValue(d) > MaxInt then None else Some(DigitsValue(d))
  }

  lemma IntegerValueOfDecimal(n: nat)
    requires n <= MaxInt
    ensures IntegerValueOf(Decimal(n)) == Some(n)
  {
    DecimalValue(n);
  }
}
