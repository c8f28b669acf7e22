# Traceur mojo, modelled in Dafny

This project models `TraceurMojo`, the `compile-es6` goal of the Wisdom Traceur
extension. The goal runs the external Traceur compiler on every JavaScript asset of a
Wisdom project, and again on each file the watch mode reports as created or updated.
Its own logic is modelled and proved here:

- **Diagnostic translation (`build`).** The text Traceur leaves on its error stream is
  split on `'\n'`. The first non-empty line is kept and trimmed, or the whole text when
  there is no such line. That line is matched in full against
  `\[Error: (.*):([0-9]*):([0-9]*):(.*)`. A match gives a diagnostic located at the
  numbers of groups 2 and 3, with group 4 trimmed as its message. Otherwise the
  diagnostic is unlocated and carries the selected line. Either way it names the source
  file it was given, under the title "EcmaScript 6 Compilation Error".
- **Compiling one file (`process`).** The file compiled is the filtered copy when there
  is one, else the input. The output location is computed from the original input. The
  tool gets exactly `traceur --out <output> --script <compiled>`. On failure, the
  diagnostic is built from the last error stream when that stream is not null or empty.
  Otherwise a generic "Error while compiling <path>" diagnostic wraps the tool's
  exception.
- **The pass (`execute`) and the watch hooks.** `execute` processes the assets in order
  and stops at the first failure. It wraps a WatchingException in "Error while
  processing a JavaScript file". `fileCreated` and `fileUpdated` process one file and
  return true. `fileDeleted` returns true.

Layout, one module per file:

- `common.dfy`: `Common`, with `Option` (a Java reference that may be null),
  `FirstWhere`, and `MapSeq` (a function applied to every element of a sequence) with
  its lemmas `MapSeqAt` and `MapSeqSnoc`.
- `java_strings.dfy`: `JavaStrings`, with the Java library behaviour the translator
  relies on: `String.split("\n")`, `String.trim()` and `Integer.valueOf`.
- `error_pattern.dfy`: `ErrorPattern`, the regular expression, with its greedy group 1.
- `diagnostics.dfy`: `Diagnostics`, the exception types and `build`.
- `node.dfy`: `Node`, the NPM handle as a class. It records the runs it was asked for
  and the last error stream.
- `traceur_mojo.dfy`: `Traceur`, the `TraceurMojo` class with `execute`, `process` and
  the watch hooks.

Java's corner cases are modelled explicitly:

- `[0-9]*` accepts an empty group, and `Integer.valueOf` throws `NumberFormatException`
  on an empty or too large group. This is the `NumberFormat` failure. It is not a
  WatchingException, so it escapes `process` and `execute` unwrapped.
- Java's `.` does not match `\n`, `\r`, U+0085, U+2028 or U+2029, so a line holding one
  of them does not match.
- `trim` removes every character up to U+0020.
- `split` drops trailing empty strings, and returns the text itself when it holds no
  `'\n'`.

The regular expression is characterised without a matcher. `Shaped(line, m)` says that
groups `m` spell the line. The greedy group 1 makes the match the spelling with the
longest group 1 (`MatchIsLongestSpelling`).

Two hosts are function parameters:

- `Host`: the base-class helpers, namely the asset listing, the filtered copy, and the
  output files.
- `Npm.outcomeOf`: what a run of the tool yields for an argument vector.

What the mojo does, as the code has it:

- It compiles one file per run, into that file's own output, passing it with `--script`.
  There is no combined output per asset root and no `--modules` or `--experimental` flag.
- Of the error text, it keeps the first line that is non-empty before trimming, so a line
  of blanks is selected and becomes "".
- It has no include-pattern or marker eligibility filter, and no `output` or
  `moduleStrategy` parameter.

## Model

| member | source | states |
|---|---|---|
| JavaStrings.Segments | src/main/java/org/wisdom.mojo.traceur/TraceurMojo.java:159 | the pieces between newlines: at least one, none holding '\n', the whole text when it has no '\n' |
| JavaStrings.JoinSegments | src/main/java/org/wisdom.mojo.traceur/TraceurMojo.java:159 | gluing the pieces back with '\n' gives the text again |
| JavaStrings.SegmentsJoin | src/main/java/org/wisdom.mojo.traceur/TraceurMojo.java:159 | splitting newline-free lines glued with '\n' gives those lines back |
| JavaStrings.Split | src/main/java/org/wisdom.mojo.traceur/TraceurMojo.java:159 | `split("\n")` is a prefix of the pieces, the dropped ones are all empty, a text without '\n' comes back whole, and when the text holds '\n' the result is empty or ends in a non-empty element |
| JavaStrings.Trim | src/main/java/org/wisdom.mojo.traceur/TraceurMojo.java:162 | `trim()` has no blank at either end, is no longer than its input, takes only characters of its input, and is empty exactly when the input is all blanks |
| JavaStrings.TrimTrimmed | src/main/java/org/wisdom.mojo.traceur/TraceurMojo.java:162 | trimming a string without blanks at its ends changes nothing |
| JavaStrings.TrimPadded | src/main/java/org/wisdom.mojo.traceur/TraceurMojo.java:170 | trimming removes exactly the blanks around a trimmed core |
| JavaStrings.Decimal | src/main/java/org/wisdom.mojo.traceur/TraceurMojo.java:172 | the decimal spelling of a number is a non-empty digit string |
| JavaStrings.DecimalValue | src/main/java/org/wisdom.mojo.traceur/TraceurMojo.java:172 | reading back the decimal spelling of n gives n |
| JavaStrings.IntegerValueOf | src/main/java/org/wisdom.mojo.traceur/TraceurMojo.java:172 | `Integer.valueOf` of a digit string succeeds exactly when the string is non-empty and its value is at most Integer.MAX_VALUE, and then yields that value |
| JavaStrings.IntegerValueOfDecimal | src/main/java/org/wisdom.mojo.traceur/TraceurMojo.java:172 | `Integer.valueOf` of the spelling of any n up to Integer.MAX_VALUE succeeds with n |
| ErrorPattern.MatchTailSound | src/main/java/org/wisdom.mojo.traceur/TraceurMojo.java:147 | a match of `:([0-9]*):([0-9]*):(.*)` spells the text from two digit groups and a terminator-free rest |
| ErrorPattern.MatchTailComplete | src/main/java/org/wisdom.mojo.traceur/TraceurMojo.java:147 | any two digit groups and a terminator-free rest, spelled with colons, are matched back into exactly those groups |
| ErrorPattern.Search | src/main/java/org/wisdom.mojo.traceur/TraceurMojo.java:147 | the backtracking of group 1 finds the largest end after which the rest matches, or reports that none exists |
| ErrorPattern.Match | src/main/java/org/wisdom.mojo.traceur/TraceurMojo.java:166-167 | a match's four groups spell the whole line as `[Error: ` g1 `:` d1 `:` d2 `:` g4 |
| ErrorPattern.MatchAtLeast | src/main/java/org/wisdom.mojo.traceur/TraceurMojo.java:166-167 | every spelling of the line by the pattern makes `matches()` succeed, with a group 1 at least as long |
| ErrorPattern.ShapedUnique | src/main/java/org/wisdom.mojo.traceur/TraceurMojo.java:147 | once group 1 is fixed, the other three groups are determined |
| ErrorPattern.MatchIsLongestSpelling | src/main/java/org/wisdom.mojo.traceur/TraceurMojo.java:147 | the match is m exactly when m spells the line and no spelling has a longer group 1 |
| ErrorPattern.NoMatchIffUnshaped | src/main/java/org/wisdom.mojo.traceur/TraceurMojo.java:166-167 | `matches()` fails exactly when no spelling of the line by the pattern exists |
| ErrorPattern.MatchWhenReasonHasNoColon | src/main/java/org/wisdom.mojo.traceur/TraceurMojo.java:166-170 | when group 4 of a spelling holds no ':', that spelling is the match |
| Diagnostics.Translate | src/main/java/org/wisdom.mojo.traceur/TraceurMojo.java:166-175 | the exception always has the compilation-error title, the given source file and no cause. Line and column are both present or both absent. It is unlocated exactly when the line does not match, and then carries the line. A NumberFormat failure is on a digit group that `Integer.valueOf` rejects |
| Diagnostics.Build | src/main/java/org/wisdom.mojo.traceur/TraceurMojo.java:158-176 | the loop over the split lines keeps the first non-empty one, trimmed (else the whole text), and the result is the translation of that line |
| Diagnostics.SelectedLine | src/main/java/org/wisdom.mojo.traceur/TraceurMojo.java:159-165 | the selected line is the whole text, or holds no '\n' and has no blank at either end |
| Diagnostics.SelectedFromSomeLine | src/main/java/org/wisdom.mojo.traceur/TraceurMojo.java:159-165 | a selected line other than the whole text is a non-empty line of the text, trimmed |
| Diagnostics.SelectedLineShape | src/main/java/org/wisdom.mojo.traceur/TraceurMojo.java:159-165 | a text of newlines only is kept unchanged; otherwise the selected line holds no '\n' and is trimmed |
| Diagnostics.SelectsFirstNonEmptyLine | src/main/java/org/wisdom.mojo.traceur/TraceurMojo.java:159-165 | the text of lines whose first non-empty one is k selects line k, trimmed |
| Diagnostics.BlankLineSelected | src/main/java/org/wisdom.mojo.traceur/TraceurMojo.java:160-163 | a first non-empty line made of blanks only is still selected, and becomes "" |
| Diagnostics.LeadingNewlineSkipped | src/main/java/org/wisdom.mojo.traceur/TraceurMojo.java:159-165 | a leading blank line does not change the selected line unless the text is newlines only |
| Diagnostics.TranslateMatched | src/main/java/org/wisdom.mojo.traceur/TraceurMojo.java:168-172 | for the longest spelling, an empty or overflowing line group (then column group) throws NumberFormatException. Otherwise the diagnostic is at the values of groups 2 and 3, with group 4 trimmed, on the given source |
| Diagnostics.LocatedReport | src/main/java/org/wisdom.mojo.traceur/TraceurMojo.java:166-172 | `[Error: <path>:<n>:<c>:<reason>` with a colon-free reason yields line n, column c, the trimmed reason, and the given source file whatever path was printed |
| Diagnostics.UnlocatedIffUnshaped | src/main/java/org/wisdom.mojo.traceur/TraceurMojo.java:173-174 | the diagnostic is unlocated exactly when no spelling of the line by the pattern exists |
| Diagnostics.ReportAfterBlankLines | src/main/java/org/wisdom.mojo.traceur/TraceurMojo.java:159-172 | with two blank lines before the report line and one space before a colon-free reason, the diagnostic is located at the reported line and column, with the reason as message |
| Diagnostics.UnexpectedEndOfInput | src/test/java/org/wisdom/mojo/traceur/TraceurTest.java:64-68 | Traceur's report of an early end of file becomes a diagnostic at line 10, at the reported column, with message "Unexpected end of input", on the given file |
| Node.Npm.constructor | src/main/java/org/wisdom.mojo.traceur/TraceurMojo.java:95 | a freshly resolved handle has run nothing and has no error stream |
| Node.Npm.Execute | src/main/java/org/wisdom.mojo.traceur/TraceurMojo.java:132-135 | a run is appended to the handle's log, its error stream becomes the last one, and its exception is thrown |
| Traceur.CompiledInput | src/main/java/org/wisdom.mojo.traceur/TraceurMojo.java:121-127 | the file compiled is the input when there is no filtered copy, and otherwise the filtered copy |
| Traceur.Command | src/main/java/org/wisdom.mojo.traceur/TraceurMojo.java:130-133 | the argument vector has five entries: `traceur`, `--out`, the output file of the original input, `--script`, and the compiled file |
| Traceur.Raised | src/main/java/org/wisdom.mojo.traceur/TraceurMojo.java:134-140 | process throws exactly when the run throws. The exception names the original input, never the filtered copy, under the compilation title. It is located, or a NumberFormat failure, only when the error stream was non-empty |
| Traceur.RaisedChoice | src/main/java/org/wisdom.mojo.traceur/TraceurMojo.java:134-140 | each case of the failure choice: nothing after a clean run; exactly `build(stream, input)` when the failed run left a non-empty stream; otherwise "Error while compiling <path>" on the input with the tool's exception as cause, the only case with a cause |
| Traceur.OutcomesAt | src/main/java/org/wisdom.mojo.traceur/TraceurMojo.java:100-102 | the pass's outcomes list, for each asset in order, what processing it raises |
| Traceur.RunCount | src/main/java/org/wisdom.mojo.traceur/TraceurMojo.java:100-105 | the pass runs at most every asset, and when it stops early its last run is a failure |
| Traceur.PassOutcome | src/main/java/org/wisdom.mojo.traceur/TraceurMojo.java:100-105 | the pass ends normally exactly when no outcome is a failure |
| Traceur.FirstFailureStops | src/main/java/org/wisdom.mojo.traceur/TraceurMojo.java:100-105 | the runs before the last one succeed; with no failure every asset is run; the pass ends normally exactly when no outcome fails, and otherwise with the wrapping of the first failure k, after k + 1 runs |
| Traceur.PassFailure | src/main/java/org/wisdom.mojo.traceur/TraceurMojo.java:103-104 | a WatchingException is wrapped in a MojoExecutionException with the processing message, and anything else escapes unchanged |
| Traceur.PassStep | src/main/java/org/wisdom.mojo.traceur/TraceurMojo.java:100-104 | one more asset in a pass appends its command, and a failure there, after none before, ends the pass with that failure after i + 1 runs |
| Traceur.PassEnd | src/main/java/org/wisdom.mojo.traceur/TraceurMojo.java:100-105 | when no asset fails, every asset was run and the pass ends normally |
| Traceur.CleanPass | src/main/java/org/wisdom.mojo.traceur/TraceurMojo.java:100-105 | execute ends normally exactly when no run fails, and then every asset was compiled |
| Traceur.FailedPass | src/main/java/org/wisdom.mojo.traceur/TraceurMojo.java:100-105 | a failing pass stops at the first failing asset: earlier ones compiled cleanly, later ones were never run, and the wrapped exception names that asset |
| Traceur.ErroneousFileReported | src/main/java/org/wisdom.mojo.traceur/TraceurMojo.java:134-136 | a failed run whose error stream reports an early end at line 10 makes process throw that located diagnostic on the original input |
| Traceur.TraceurMojo.constructor | src/main/java/org/wisdom.mojo.traceur/TraceurMojo.java:76-82 | a new mojo keeps its host and version and has no NPM handle yet |
| Traceur.TraceurMojo.WithDefaultVersion | src/main/java/org/wisdom.mojo.traceur/TraceurMojo.java:76-77 | a mojo whose `version` is not configured uses "0.0.49" and has no NPM handle yet |
| Traceur.TraceurMojo.Execute | src/main/java/org/wisdom.mojo.traceur/TraceurMojo.java:92-107 | it stores the handle, runs the commands of the assets up to and including the first failure, in order, leaves the last run's error stream, and ends as the pass outcome of those runs |
| Traceur.TraceurMojo.ProcessAt | src/main/java/org/wisdom.mojo.traceur/TraceurMojo.java:100-104 | one round of the loop: processing asset i appends its command, leaves its error stream, and yields the i-th outcome, which, when a failure, ends the pass after i + 1 runs |
| Traceur.TraceurMojo.Process | src/main/java/org/wisdom.mojo.traceur/TraceurMojo.java:118-142 | exactly one run, `traceur --out <output of input> --script <filtered copy or input>`, is made, and the exception thrown is the one `Raised` gives for its outcome |
| Traceur.TraceurMojo.FileCreated | src/main/java/org/wisdom.mojo.traceur/TraceurMojo.java:196-200 | it processes the file and returns true, or throws what process throws |
| Traceur.TraceurMojo.FileUpdated | src/main/java/org/wisdom.mojo.traceur/TraceurMojo.java:209-212 | it behaves as fileCreated: the same run and the same result |
| Traceur.TraceurMojo.FileDeleted | src/main/java/org/wisdom.mojo.traceur/TraceurMojo.java:220-225 | it returns true and names the ".js" output of the file as the one to delete |

## Left out

- Resolving the Traceur package (`NPM.npm`, line 95) is left out: `Execute` takes the resolved handle, with the configured name and version, as a parameter.
- A failure to resolve the package is left out, because it happens in the external tool resolver.
- Running the external process is left out: what a run yields is the function `Npm.outcomeOf`.
- The compiled output and its contents are left out; they are the external compiler's work.
- The base-class helpers `getResources`, `getFilteredVersion` and `getOutputFile` become the given `Host` functions. `AbstractWisdomWatcherMojo` is not part of this model.
- `process` makes Java throw a NullPointerException when called before `execute` has set `npm`. Callers are instead required to have a handle (`requires npm != null`).
- The warning `process` logs when there is no filtered copy (line 124) is left out: logging has no effect on the result.
- `accept` (line 186) is left out. It delegates to `WatcherUtils.hasExtension`, which is not part of this model.
- Traceur.TraceurMojo.FileDeleted: does not delete anything. The quiet deletion of the output file is a filesystem side effect; the method only returns true and the file it would delete.
- Node.Npm.Execute: records a run instead of starting a process, and never blocks or times out.
- The Java `String` is modelled as a sequence of Unicode characters, not UTF-16 code units. Every character that trimming, splitting and the pattern single out is a single code unit, and a surrogate is neither blank, a digit, a colon nor a line terminator, so the two views select, trim and match alike.
- File paths are taken as given absolute paths. Resolving a `File` against the working directory is left out.
- `Npm.outcomeOf` and the `Host` functions are fixed for the lifetime of the handle and the mojo, so running the same command twice yields the same outcome. The model cannot show a file's contents changing between two watch events, for instance an edit that fixes a compilation error before `fileUpdated`. No proved property depends on two runs of the same command.
