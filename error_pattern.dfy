/**
 * The regular expression TRACEUR_COMPILATION_ERROR,
 *     \[Error: (.*):([0-9]*):([0-9]*):(.*)
 * applied with Matcher.matches(), i.e. to the whole line. Java's `.` matches any character
 * but a line terminator; `.*` in group 1 is greedy, so among all ways of splitting the line
 * the matcher keeps the one with the longest group 1. Once group 1 is fixed the rest is
 * determined, because a digit run must be followed by ':'.
 */
module ErrorPattern {
  import opened Common
  import opened JavaStrings

  const ErrorPrefix: string := "[Error: "

  /** The characters Java's `.` refuses without DOTALL: \n, \r, U+0085, U+2028, U+2029. */
  predicate IsLineTerminator(c: char) {
    c == '\n' || c == '\r' || c == '\U{0085}' || c == '\U{2028}' || c == '\U{2029}'
  }

  predicate NoLineTerminator(s: string) {
    forall i :: 0 <= i < |s| ==> !IsLineTerminator(s[i])
  }

  lemma NoLineTerminatorConcat(a: string, b: string)
    requires NoLineTerminator(a) && NoLineTerminator(b)
    ensures NoLineTerminator(a + b)
  {
    assert forall i :: 0 <= i < |a + b| ==> (a + b)[i] == if i < |a| then a[i] else b[i - |a|];
  }

  /** The four capturing groups of a match. */
  datatype ErrorMatch = ErrorMatch(file: string, line: string, column: string, reason: string)

  /** What follows group 1: ':' group2 ':' group3 ':' group4. */
  function Tail(m: ErrorMatch): (r: string) {
    ":" + m.line + ":" + m.column + ":" + m.reason
  }

  /** `line` is spelled by the pattern with groups `m`. */
  predicate Shaped(line: string, m: ErrorMatch) {
    && |line| >= |ErrorPrefix|
    && line[..|ErrorPrefix|] == ErrorPrefix
    && line[|ErrorPrefix|..] == m.file + Tail(m)
    && NoLineTerminator(m.file)
    && AllDigits(m.line)
    && AllDigits(m.column)
    && NoLineTerminator(m.reason)
  }

  /** End of the longest run of non-terminators starting at `i`: how far `.*` can reach. */
  function DotRun(s: string, i: nat): (e: nat)
    requires i <= |s|
    ensures i <= e <= |s|
    ensures forall j :: i <= j < e ==> !IsLineTerminator(s[j])
    ensures e < |s| ==> IsLineTerminator(s[e])
    decreases |s| - i
  {
    if i < |s| && !IsLineTerminator(s[i]) then DotRun(s, i + 1) else i
  }

  /** End of the longest run of digits starting at `i`: how far `[0-9]*` can reach. */
  function DigitRun(s: string, i: nat): (e: nat)
    requires i <= |s|
    ensures i <= e <= |s|
    ensures AllDigits(s[i..e])
    ensures e < |s| ==> !IsDigit(s[e])
    decreases |s| - i
  {
    if i < |s| && IsDigit(s[i]) then DigitRun(s, i + 1) else i
  }

  /** Matching `:([0-9]*):([0-9]*):(.*)` against the whole of `t`. */
  function MatchTail(t: string): (r: Option<(string, string, string)>) {
    if |t| == 0 || t[0] != ':' then None
    else
      var e1 := DigitRun(t, 1);
      if e1 == |t| || t[e1] != ':' then None
      else
        var e2 := DigitRun(t, e1 + 1);
        if e2 == |t| || t[e2] != ':' then None
        else if NoLineTerminator(t[e2 + 1..]) then Some((t[1..e1], t[e1 + 1..e2], t[e2 + 1..]))
        else None
  }

  /** The groups of a tail match spell the text, with digit groups and a terminator-free rest. */
  lemma MatchTailSound(t: string)
    ensures var r := MatchTail(t);
            r.Some? ==> t == ":" + r.value.0 + ":" + r.value.1 + ":" + r.value.2
    ensures var r := MatchTail(t);
            r.Some? ==> AllDigits(r.value.0) && AllDigits(r.value.1) && NoLineTerminator(r.value.2)
  {
    if MatchTail(t).Some? {
      var e1 := DigitRun(t, 1);
      var e2 := DigitRun(t, e1 + 1);
      assert t == ":" + t[1..e1] + ":" + t[e1 + 1..e2] + ":" + t[e2 + 1..];
    }
  }

  /** A digit run followed by ':' is found exactly. */
  lemma DigitRunStops(s: string, i: nat, d: string)
    requires i + |d| < |s| && s[i..i + |d|] == d && AllDigits(d) && s[i + |d|] == ':'
    ensures DigitRun(s, i) == i + |d|
  {
    assert forall j :: i <= j < i + |d| ==> s[j] == d[j - i];
  }

  lemma MatchTailComplete(d1: string, d2: string, g4: string)
    requires AllDigits(d1) && AllDigits(d2) && NoLineTerminator(g4)
    ensures MatchTail(":" + d1 + ":" + d2 + ":" + g4) == Some((d1, d2, g4))
  {
    var t := ":" + d1 + ":" + d2 + ":" + g4;
    assert t[1..1 + |d1|] == d1;
    DigitRunStops(t, 1, d1);
    var e1 := 1 + |d1|;
    assert t[e1 + 1..e1 + 1 + |d2|] == d2;
    DigitRunStops(t, e1 + 1, d2);
    var e2 := e1 + 1 + |d2|;
    assert t[e2 + 1..] == g4;
  }

  /** The rest of the pattern does not match after a group 1 ending at `q`. */
  predicate TailFails(body: string, q: nat)
    requires q <= |body|
  {
    MatchTail(body[q..]).None?
  }

  /**
   * The backtracking of group 1: try every end position from `p` down to 0 and keep the
   * first (largest) one after which the rest of the pattern matches.
   */
  function Search(body: string, p: nat): (r: Option<ErrorMatch>)
    requires p <= |body|
    ensures r.Some? ==> |r.value.file| <= p && r.value.file == body[..|r.value.file|]
    ensures r.Some? ==> MatchTail(body[|r.value.file|..]) == Some((r.value.line, r.value.column, r.value.reason))
    ensures r.Some? ==> forall q :: |r.value.file| < q <= p ==> TailFails(body, q)
    ensures r.None? ==> forall q :: 0 <= q <= p ==> TailFails(body, q)
    decreases p
  {
    match MatchTail(body[p..])
    case Some(g) => Some(ErrorMatch(body[..p], g.0, g.1, g.2))
    case None => if p == 0 then None else Search(body, p - 1)
  }

  /** TRACEUR_COMPILATION_ERROR.matcher(line).matches(), with its four groups. */
  function Match(line: string): (r: Option<ErrorMatch>)
    ensures r.Some? ==> Shaped(line, r.value)
  {
    if |line| >= |ErrorPrefix| && line[..|ErrorPrefix|] == ErrorPrefix then
      var body := line[|ErrorPrefix|..];
      var r := Search(body, DotRun(body, 0));
      if r.Some? then
        MatchTailSound(body[|r.value.file|..]);
        assert body == r.value.file + body[|r.value.file|..];
        r
      else r
    else None
  }

  /** Every spelling of the line by the pattern is found, or beaten by a longer group 1. */
  lemma MatchAtLeast(line: string, m: ErrorMatch)
    requires Shaped(line, m)
    ensures Match(line).Some? && |m.file| <= |Match(line).value.file|
  {
    var body := line[|ErrorPrefix|..];
    var q := |m.file|;
    assert body[q..] == Tail(m);
    MatchTailComplete(m.line, m.column, m.reason);
    assert !TailFails(body, q);
    assert forall j :: 0 <= j < q ==> body[j] == m.file[j];
  }

  /** Two spellings with the same group 1 are the same. */
  lemma ShapedUnique(line: string, m1: ErrorMatch, m2: ErrorMatch)
    requires Shaped(line, m1) && Shaped(line, m2) && |m1.file| == |m2.file|
    ensures m1 == m2
  {
    var body := line[|ErrorPrefix|..];
    var q := |m1.file|;
    assert m1.file == body[..q] == m2.file;
    assert Tail(m1) == body[q..] == Tail(m2);
    MatchTailComplete(m1.line, m1.column, m1.reason);
    MatchTailComplete(m2.line, m2.column, m2.reason);
  }

  /** The match is exactly the spelling of the line with the longest group 1. */
  lemma MatchIsLongestSpelling(line: string, m: ErrorMatch)
    ensures Match(line) == Some(m) <==>
              (Shaped(line, m) && forall m' :: Shaped(line, m') ==> |m'.file| <= |m.file|)
  {
    if Match(line) == Some(m) {
      forall m' | Shaped(line, m') ensures |m'.file| <= |m.file| {
        MatchAtLeast(line, m');
      }
    }
    if Shaped(line, m) && forall m' :: Shaped(line, m') ==> |m'.file| <= |m.file| {
      MatchAtLeast(line, m);
      var m0 := Match(line).value;
      ShapedUnique(line, m, m0);
    }
  }

  /** The line fails to match exactly when the pattern has no spelling of it. */
  lemma NoMatchIffUnshaped(line: string)
    ensures Match(line).None? <==> forall m :: !Shaped(line, m)
  {
    var r := Match(line);
    assert r.Some? ==> Shaped(line, r.value);
    if exists m :: Shaped(line, m) {
      var m :| Shaped(line, m);
      MatchAtLeast(line, m);
    }
  }

  /** The number of ':' characters in `s`. */
  function Colons(s: string): (n: nat) {
    if s == [] then 0 else (if s[0] == ':' then 1 else 0) + Colons(s[1..])
  }

  lemma {:induction false} ColonsConcat(a: string, b: string)
    ensures Colons(a + b) == Colons(a) + Colons(b)
    decreases |a|
  {
    if a == [] {
      assert a + b == b;
    } else {
      assert (a + b)[1..] == a[1..] + b;
      ColonsConcat(a[1..], b);
    }
  }

  lemma {:induction false} NoColons(s: string)
    requires ':' !in s
    ensures Colons(s) == 0
    decreases |s|
  {
    if s != [] {
      assert s[0] != ':' && ':' !in s[1..];
      NoColons(s[1..]);
    }
  }

  /**
   * When the reason holds no ':', group 1 cannot reach into the numbers: the match is the
   * spelling that ends group 1 right before them.
   */
  lemma MatchWhenReasonHasNoColon(line: string, m: ErrorMatch)
    requires Shaped(line, m) && ':' !in m.reason
    ensures Match(line) == Some(m)
  {
    assert ':' !in m.line && ':' !in m.column;
    var t := Tail(m);
    assert Colons(t) == 3 by {
      NoColons(m.line);
      NoColons(m.column);
      NoColons(m.reason);
      ColonsConcat(":", m.line);
      ColonsConcat(":" + m.line, ":");
      ColonsConcat(":" + m.line + ":", m.column);
      ColonsConcat(":" + m.line + ":" + m.column, ":");
      ColonsConcat(":" + m.line + ":" + m.column + ":", m.reason);
    }
    forall m' | Shaped(line, m') ensures |m'.file| <= |m.file| {
      if |m'.file| > |m.file| {
        var body := line[|ErrorPrefix|..];
        var j := |m'.file| - |m.file|;
        assert body[|m.file|..] == t;
        assert body[|m'.file|..] == Tail(m') == t[j..];
        assert Colons(Tail(m')) >= 3 by {
          ColonsConcat(":", m'.line);
          ColonsConcat(":" + m'.line, ":");
          ColonsConcat(":" + m'.line + ":", m'.column);
          ColonsConcat(":" + m'.line + ":" + m'.column, ":");
          ColonsConcat(":" + m'.line + ":" + m'.column + ":", m'.reason);
        }
        assert Colons(t[..j]) >= 1 by {
          assert t[..j] == [':'] + t[1..j];
          ColonsConcat([':'], t[1..j]);
        }
        assert t == t[..j] + t[j..];
        ColonsConcat(t[..j], t[j..]);
        assert false;
      }
    }
    MatchIsLongestSpelling(line, m);
  }
}
