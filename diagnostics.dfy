/**
 * TraceurMojo.build: turning the text Traceur wrote on its error stream into the
 * WatchingException the watcher reports, located at a line and column when the first
 * non-empty line has the shape of TRACEUR_COMPILATION_ERROR.
 */
module Diagnostics {
  import opened Common
  import opened JavaStrings
  import opened ErrorPattern
  import opened Node

  /** A java.io.File, known by its absolute path. */
  datatype File = File(absolutePath: string)

  const CompilationErrorTitle: string := "EcmaScript 6 Compilation Error"

  /** org.wisdom.maven.WatchingException; `line` and `character` are null when unlocated. */
  datatype WatchingException = WatchingException(
    title: string,
    message: string,
    file: File,
    line: Option<int>,
    character: Option<int>,
    cause: Option<NpmFailure>)

  /**
   * What surfaces from build: the WatchingException it returns, or the
   * NumberFormatException that Integer.valueOf throws on an empty or too large digit group.
   */
  datatype Failure = Watching(exception: WatchingException) | NumberFormat(input: string)

  /** The loop's test: !Strings.isNullOrEmpty(l) (split never yields null). */
  predicate NonEmpty(l: string) {
    l != ""
  }

  /** The line build matches: the first non-empty line, trimmed, or else the whole text. */
  function SelectedLine(message: string): (r: string)
    ensures r == message || ('\n' !in r && Trimmed(r))
  {
    var segs := Segments(message);
    var k := FirstWhere(segs, NonEmpty);
    if k < |segs| then
      var t := Trim(segs[k]);
      assert forall j :: 0 <= j < |t| ==> t[j] != '\n';
      t
    else message
  }

  /** The exception build produces for the selected line. */
  function Translate(line: string, source: File): (r: Failure)
    ensures r.Watching? ==> r.exception.title == CompilationErrorTitle
    ensures r.Watching? ==> r.exception.file == source && r.exception.cause.None?
    ensures r.Watching? ==> (r.exception.line.Some? <==> r.exception.character.Some?)
    ensures r.Watching? && r.exception.line.None? ==> r.exception.message == line
    ensures (r.Watching? && r.exception.line.None?) <==> Match(line).None?
    ensures r.NumberFormat? ==> AllDigits(r.input) && IntegerValueOf(r.input).None?
  {
    match Match(line)
    case None => Watching(WatchingException(CompilationErrorTitle, line, source, None, None, None))
    case Some(g) =>
      match IntegerValueOf(g.line)
      case None => NumberFormat(g.line)
      case Some(n) =>
        match IntegerValueOf(g.column)
        case None => NumberFormat(g.column)
        case Some(c) =>
          Watching(WatchingException(CompilationErrorTitle, Trim(g.reason), source, Some(n), Some(c), None))
  }

  /** TraceurMojo.build(message, source). */
  method Build(message: string, source: File) returns (r: Failure)
    ensures r == Translate(SelectedLine(message), source)
  {
    var lines := Split(message);
    var selected := message;
    var i := 0;
    while i < |lines|
      invariant 0 <= i <= |lines|
      invariant forall j :: 0 <= j < i ==> lines[j] == ""
      invariant selected == message
    {
      if lines[i] != "" {
        selected := Trim(lines[i]);
        break;
      }
      i := i + 1;
    }
    ghost var segs := Segments(message);
    assert forall j :: 0 <= j < |lines| ==> segs[j] == lines[j];
    assert selected == SelectedLine(message) by {
      if i < |lines| {
        assert FirstWhere(segs, NonEmpty) == i;
      } else {
        assert FirstWhere(segs, NonEmpty) == |segs|;
      }
    }
    r := Translate(selected, source);
  }

  // ---------------------------------------------------------------------------------------
  // Line selection

  /**
   * The selected line has no newline and no blank at either end, unless the text is
   * made of newlines only, in which case it is the text itself.
   */
  lemma SelectedLineShape(message: string)
    ensures (forall i :: 0 <= i < |message| ==> message[i] == '\n') ==> SelectedLine(message) == message
    ensures (exists i :: 0 <= i < |message| && message[i] != '\n') ==>
              '\n' !in SelectedLine(message) && Trimmed(SelectedLine(message))
  {
    var segs := Segments(message);
    var k := FirstWhere(segs, NonEmpty);
    if forall i :: 0 <= i < |message| ==> message[i] == '\n' {
      NewlinesMakeEmptySegments(message);
    } else {
      var i :| 0 <= i < |message| && message[i] != '\n';
      NonNewlineMakesSegment(message, i);
      var t := Trim(segs[k]);
      assert forall j :: 0 <= j < |t| ==> t[j] != '\n';
    }
  }

  /** Of the lines of a text, build keeps the first non-empty one, trimmed. */
  /** A selected line other than the whole text is a non-empty line of it, trimmed. */
  lemma SelectedFromSomeLine(message: string)
    ensures SelectedLine(message) != message ==>
              exists k :: 0 <= k < |Segments(message)| && Segments(message)[k] != ""
                && SelectedLine(message) == Trim(Segments(message)[k])
  {
    var segs := Segments(message);
    var k := FirstWhere(segs, NonEmpty);
    if k < |segs| {
      assert segs[k] != "" && SelectedLine(message) == Trim(segs[k]);
    }
  }

  lemma SelectsFirstNonEmptyLine(lines: seq<string>, k: nat)
    requires |lines| >= 1 && forall i :: 0 <= i < |lines| ==> '\n' !in lines[i]
    requires k < |lines| && lines[k] != ""
    requires forall j :: 0 <= j < k ==> lines[j] == ""
    ensures SelectedLine(Join(lines)) == Trim(lines[k])
  {
    SegmentsJoin(lines);
    assert FirstWhere(lines, NonEmpty) == k;
  }

  /** A line that is not empty but all blanks is still selected, and trims to "". */
  lemma BlankLineSelected(lines: seq<string>, k: nat)
    requires |lines| >= 1 && forall i :: 0 <= i < |lines| ==> '\n' !in lines[i]
    requires k < |lines| && lines[k] != "" && forall i :: 0 <= i < |lines[k]| ==> IsBlank(lines[k][i])
    requires forall j :: 0 <= j < k ==> lines[j] == ""
    ensures SelectedLine(Join(lines)) == ""
  {
    SelectsFirstNonEmptyLine(lines, k);
  }

  /** A leading blank line changes nothing, as long as some text follows. */
  lemma LeadingNewlineSkipped(message: string)
    requires exists i :: 0 <= i < |message| && message[i] != '\n'
    ensures SelectedLine("\n" + message) == SelectedLine(message)
  {
    var i :| 0 <= i < |message| && message[i] != '\n';
    NonNewlineMakesSegment(message, i);
    var segs := Segments(message);
    assert ("\n" + message)[0] == '\n' && ("\n" + message)[1..] == message;
    assert Segments("\n" + message) == [[]] + segs;
    assert ([[]] + segs)[1..] == segs;
    assert FirstWhere([[]] + segs, NonEmpty) == 1 + FirstWhere(segs, NonEmpty);
  }

  // ---------------------------------------------------------------------------------------
  // The two cases of build

  /**
   * A line spelled "[Error: <file>:<n>:<c>:<reason>" with a colon-free reason yields a
   * diagnostic at line n, column c, with the trimmed reason, on the given source file,
   * whatever path the tool reported.
   */
  lemma LocatedReport(file: string, n: nat, c: nat, reason: string, source: File)
    requires NoLineTerminator(file) && NoLineTerminator(reason) && ':' !in reason
    requires n <= MaxInt && c <= MaxInt
    ensures Translate(ReportLine(file, n, c, reason), source)
         == Watching(WatchingException(CompilationErrorTitle, Trim(reason), source, Some(n), Some(c), None))
  {
    var line := ErrorPrefix + file + ":" + Decimal(n) + ":" + Decimal(c) + ":" + reason;
    var m := ErrorMatch(file, Decimal(n), Decimal(c), reason);
    assert line == ErrorPrefix + (file + Tail(m));
    assert line[..|ErrorPrefix|] == ErrorPrefix;
    assert line[|ErrorPrefix|..] == file + Tail(m);
    MatchWhenReasonHasNoColon(line, m);
    IntegerValueOfDecimal(n);
    IntegerValueOfDecimal(c);
  }

  /**
   * On a match, located at the values of groups 2 and 3 with group 4 trimmed, where the
   * groups are those of the spelling with the longest group 1; an empty or too large
   * line group, and then column group, escapes as a NumberFormatException instead.
   */
  lemma TranslateMatched(line: string, m: ErrorMatch, source: File)
    requires Shaped(line, m) && forall m' :: Shaped(line, m') ==> |m'.file| <= |m.file|
    ensures m.line == "" || DigitsValue(m.line) > MaxInt ==> Translate(line, source) == NumberFormat(m.line)
    ensures m.line != "" && DigitsValue(m.line) <= MaxInt && (m.column == "" || DigitsValue(m.column) > MaxInt) ==>
              Translate(line, source) == NumberFormat(m.column)
    ensures m.line != "" && DigitsValue(m.line) <= MaxInt && m.column != "" && DigitsValue(m.column) <= MaxInt ==>
              Translate(line, source)
              == Watching(WatchingException(CompilationErrorTitle, Trim(m.reason), source,
                                            Some(DigitsValue(m.line)), Some(DigitsValue(m.column)), None))
  {
    MatchIsLongestSpelling(line, m);
  }

  /** The diagnostic is unlocated exactly when the line has no spelling by the pattern. */
  lemma UnlocatedIffUnshaped(line: string, source: File)
    ensures (Translate(line, source).Watching? && Translate(line, source).exception.line.None?)
        <==> forall m :: !Shaped(line, m)
  {
    NoMatchIffUnshaped(line);
  }

  /** A report line made of terminator-free parts has no line terminator. */
  lemma ReportLineUnbroken(path: string, line: string, column: string, reason: string)
    requires NoLineTerminator(path) && AllDigits(line) && AllDigits(column) && NoLineTerminator(reason)
    ensures NoLineTerminator(ErrorPrefix + path + ":" + line + ":" + column + ":" + reason)
  {
    NoLineTerminatorConcat(ErrorPrefix, path);
    NoLineTerminatorConcat(ErrorPrefix + path, ":");
    NoLineTerminatorConcat(ErrorPrefix + path + ":", line);
    NoLineTerminatorConcat(ErrorPrefix + path + ":" + line, ":");
    NoLineTerminatorConcat(ErrorPrefix + path + ":" + line + ":", column);
    NoLineTerminatorConcat(ErrorPrefix + path + ":" + line + ":" + column, ":");
    NoLineTerminatorConcat(ErrorPrefix + path + ":" + line + ":" + column + ":", reason);
  }

  /** Two blank lines and then a trimmed `line`. */
  lemma TwoBlankLines(line: string)
    requires '\n' !in line && line != "" && Trimmed(line)
    ensures SelectedLine("\n\n" + line) == line
  {
    assert Join(["", line]) == "\n" + line;
    assert Join(["", "", line]) == "\n" + Join(["", line]);
    assert "\n\n" + line == Join(["", "", line]);
    SelectsFirstNonEmptyLine(["", "", line], 2);
    TrimTrimmed(line);
  }

  /** The report line built from its parts. */
  function ReportLine(path: string, n: nat, c: nat, reason: string): (r: string) {
    ErrorPrefix + path + ":" + Decimal(n) + ":" + Decimal(c) + ":" + reason
  }

  lemma ReportLineFacts(path: string, n: nat, c: nat, text: string)
    requires NoLineTerminator(path) && NoLineTerminator(text)
    requires text != "" && Trimmed(text)
    ensures var line := ReportLine(path, n, c, " " + text);
            '\n' !in line && line != "" && Trimmed(line)
  {
    var reason := " " + text;
    NoLineTerminatorConcat(" ", text);
    ReportLineUnbroken(path, Decimal(n), Decimal(c), reason);
    assert IsLineTerminator('\n');
  }

  lemma PaddedReason(text: string)
    requires NoLineTerminator(text) && ':' !in text && text != "" && Trimmed(text)
    ensures NoLineTerminator(" " + text) && ':' !in " " + text && Trim(" " + text) == text
  {
    NoLineTerminatorConcat(" ", text);
    TrimPadded(" ", text, []);
    assert " " + text + [] == " " + text;
  }

  /**
   * Blank lines before the report and blanks after its last colon do not matter: the
   * diagnostic carries the reported numbers and the text of the reason.
   */
  lemma ReportAfterBlankLines(path: string, n: nat, c: nat, text: string, source: File)
    requires NoLineTerminator(path) && NoLineTerminator(text) && ':' !in text
    requires text != "" && Trimmed(text)
    requires n <= MaxInt && c <= MaxInt
    ensures Translate(SelectedLine("\n\n" + ReportLine(path, n, c, " " + text)), source)
         == Watching(WatchingException(CompilationErrorTitle, text, source, Some(n), Some(c), None))
  {
    ReportLineFacts(path, n, c, text);
    TwoBlankLines(ReportLine(path, n, c, " " + text));
    PaddedReason(text);
    LocatedReport(path, n, c, " " + text, source);
  }

  /** The reason Traceur gives for a file that ends too early. */
  const EndOfInput: string := "Unexpected end of input"

  /**
   * The failure the test suite expects from an erroneous file: after blank lines, Traceur's
   * "[Error: <path>:10:<column>: Unexpected end of input" becomes a diagnostic at line 10
   * with message "Unexpected end of input" on the compiled source file.
   */
  lemma UnexpectedEndOfInput(path: string, column: nat, source: File)
    requires NoLineTerminator(path)
    requires 0 < column <= MaxInt
    ensures Translate(SelectedLine("\n\n" + ReportLine(path, 10, column, " " + EndOfInput)), source)
         == Watching(WatchingException(CompilationErrorTitle, EndOfInput, source, Some(10), Some(column), None))
  {
    assert NoLineTerminator(EndOfInput) && ':' !in EndOfInput && Trimmed(EndOfInput);
    ReportAfterBlankLines(path, 10, column, EndOfInput, source);
  }
}
