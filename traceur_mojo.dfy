/**
 * TraceurMojo: the compile-es6 goal. `Execute` compiles every JavaScript asset in turn and
 * stops at the first failure; the watch hooks recompile one file; `Process` decides which
 * file Traceur compiles, with which arguments, and which exception a failed run becomes.
 */
module Traceur {
  import opened Common
  import opened Node
  import opened JavaStrings
  import opened ErrorPattern
  import opened Diagnostics

  /** OUTPUT_EXTENSION, INPUT_EXTENSION and NPM_NAME. */
  const OutputExtension: string := "js"
  const InputExtension: string := "js"
  const NpmName: string := "traceur"

  /** The default of the `version` parameter. */
  const DefaultVersion: string := "0.0.49"

  /** The message `Execute` wraps a WatchingException in. */
  const ProcessingErrorMessage: string := "Error while processing a JavaScript file"

  /**
   * The helpers TraceurMojo inherits from AbstractWisdomWatcherMojo, which look at the
   * project's directories; here they are given functions.
   */
  datatype Host = Host(
    /** getResources(extensions): the internal and external assets with those extensions. */
    resources: seq<string> -> seq<File>,
    /** getFilteredVersion(input): the filtered copy of the input, None for null. */
    filteredVersion: File -> Option<File>,
    /** getOutputFile(input): where the compiled input goes. */
    outputFile: File -> File,
    /** getOutputFile(file, extension): the output file with the given extension. */
    outputFileWithExtension: (File, string) -> File)

  /** How Execute ends: normally, with the MojoExecutionException it throws, or unchecked. */
  datatype ExecuteOutcome =
    | Done
    | MojoFailure(message: string, cause: WatchingException)
    | Unchecked(numberFormatInput: string)

  /** How a watch hook ends: it returns a boolean or throws. */
  datatype HookOutcome = Returned(value: bool) | Threw(failure: Failure)

  /** The assets execute compiles: getResources of the JavaScript extension. */
  function Assets(host: Host): seq<File> {
    host.resources([InputExtension])
  }

  /** The file Traceur compiles: the filtered copy when there is one, else the input. */
  function CompiledInput(host: Host, input: File): (r: File)
    ensures host.filteredVersion(input).None? ==> r == input
    ensures host.filteredVersion(input).Some? ==> host.filteredVersion(input) == Some(r)
  {
    match host.filteredVersion(input)
    case Some(filtered) => filtered
    case None => input
  }

  /** The argument vector of the run that compiles `input`, binary first. */
  function Command(host: Host, input: File): (r: seq<string>)
    ensures |r| == 5 && r[0] == NpmName && r[1] == "--out" && r[3] == "--script"
    ensures r[2] == host.outputFile(input).absolutePath
    ensures r[4] == CompiledInput(host, input).absolutePath
  {
    [NpmName, "--out", host.outputFile(input).absolutePath, "--script", CompiledInput(host, input).absolutePath]
  }

  /** The commands run for `files`, in order. */
  function Commands(host: Host, files: seq<File>): (r: seq<seq<string>>)
    ensures |r| == |files|
  {
    MapSeq(f => Command(host, f), files)
  }

  /**
   * The exception a run with `outcome` makes `process(input)` throw, if any. It is always
   * about the original input, never about the filtered copy that was compiled.
   */
  function Raised(outcome: NpmOutcome, input: File): (r: Option<Failure>)
    ensures r.None? <==> outcome.thrown.None?
    ensures r.Some? && r.value.Watching? ==> r.value.exception.file == input
    ensures r.Some? && r.value.Watching? ==> r.value.exception.title == CompilationErrorTitle
    ensures r.Some? && r.value.Watching? && r.value.exception.line.Some? ==>
              outcome.errorStream.Some? && outcome.errorStream.value != ""
    ensures r.Some? && r.value.NumberFormat? ==> outcome.errorStream.Some? && outcome.errorStream.value != ""
  {
    if outcome.thrown.None? then None
    else if outcome.errorStream.Some? && outcome.errorStream.value != "" then
      Some(Translate(SelectedLine(outcome.errorStream.value), input))
    else
      Some(Watching(WatchingException(CompilationErrorTitle, "Error while compiling " + input.absolutePath,
                                      input, None, None, outcome.thrown)))
  }

  /**
   * The failure choice of process, case by case: no failure after a clean run; after a
   * failed run with a non-empty error stream, exactly what build makes of that stream for
   * the original input; otherwise the generic diagnostic on the input, caused by the tool's
   * exception. A WatchingException has a cause exactly in that last case.
   */
  lemma RaisedChoice(outcome: NpmOutcome, input: File)
    ensures outcome.thrown.None? ==> Raised(outcome, input) == None
    ensures outcome.thrown.Some? && outcome.errorStream.Some? && outcome.errorStream.value != "" ==>
              Raised(outcome, input) == Some(Translate(SelectedLine(outcome.errorStream.value), input))
    ensures outcome.thrown.Some? && (outcome.errorStream.None? || outcome.errorStream.value == "") ==>
              Raised(outcome, input)
              == Some(Watching(WatchingException(CompilationErrorTitle, "Error while compiling " + input.absolutePath,
                                                 input, None, None, outcome.thrown)))
    ensures var r := Raised(outcome, input);
            r.Some? && r.value.Watching? ==>
              (r.value.exception.cause.Some? <==> outcome.errorStream.None? || outcome.errorStream.value == "")
    ensures var r := Raised(outcome, input);
            r.Some? && r.value.Watching? && r.value.exception.cause.Some? ==> r.value.exception.cause == outcome.thrown
  {
  }

  /** A file's outcome stops the pass. */
  predicate Failed(o: Option<Failure>) {
    o.Some?
  }

  /** What process raises for `file`, run by a tool that behaves as `outcomeOf`. */
  function Processed(outcomeOf: seq<string> -> NpmOutcome, host: Host, file: File): (r: Option<Failure>) {
    Raised(outcomeOf(Command(host, file)), file)
  }

  /** What process raises for each of `files`, in order. */
  function Outcomes(outcomeOf: seq<string> -> NpmOutcome, host: Host, files: seq<File>): (r: seq<Option<Failure>>)
    ensures |r| == |files|
  {
    MapSeq(f => Processed(outcomeOf, host, f), files)
  }

  /** Outcomes lists, for each file in turn, what processing that file raises. */
  lemma OutcomesAt(outcomeOf: seq<string> -> NpmOutcome, host: Host, files: seq<File>, i: nat)
    requires i < |files|
    ensures Outcomes(outcomeOf, host, files)[i] == Processed(outcomeOf, host, files[i])
  {
    MapSeqAt(f => Processed(outcomeOf, host, f), files, i);
  }

  /** The number of files a pass runs the tool on: up to and including the first failure. */
  function RunCount(outs: seq<Option<Failure>>): (n: nat)
    ensures n <= |outs|
    ensures n < |outs| ==> 0 < n && Failed(outs[n - 1])
  {
    var k := FirstWhere(outs, Failed);
    if k < |outs| then k + 1 else k
  }

  /** How Execute reports the first failure of the pass, if any. */
  function PassOutcome(outs: seq<Option<Failure>>): (r: ExecuteOutcome)
    ensures r == Done <==> FirstWhere(outs, Failed) == |outs|
  {
    var k := FirstWhere(outs, Failed);
    if k == |outs| then Done else PassFailure(outs[k].value)
  }

  /**
   * The pass stops at the first failure: the runs before the last one succeeded, and
   * every file is run when none fails; it ends normally exactly when no file failed, and
   * otherwise with the wrapping of the first failure.
   */
  lemma FirstFailureStops(outs: seq<Option<Failure>>)
    ensures forall j :: 0 <= j < RunCount(outs) - 1 ==> !Failed(outs[j])
    ensures (forall j :: 0 <= j < |outs| ==> !Failed(outs[j])) ==> RunCount(outs) == |outs|
    ensures PassOutcome(outs) == Done <==> forall j :: 0 <= j < |outs| ==> !Failed(outs[j])
    ensures PassOutcome(outs) != Done ==>
              exists k :: 0 <= k < |outs| && Failed(outs[k]) && (forall j :: 0 <= j < k ==> !Failed(outs[j]))
                && RunCount(outs) == k + 1 && PassOutcome(outs) == PassFailure(outs[k].value)
  {
    var k := FirstWhere(outs, Failed);
    assert k < |outs| ==> Failed(outs[k]);
  }

  /** The wrapping in execute: a WatchingException is wrapped, anything else escapes as it is. */
  function PassFailure(f: Failure): (r: ExecuteOutcome)
    ensures r.MojoFailure? <==> f.Watching?
    ensures r.MojoFailure? ==> r.message == ProcessingErrorMessage && r.cause == f.exception
    ensures r.Unchecked? ==> r.numberFormatInput == f.input
  {
    match f
    case Watching(e) => MojoFailure(ProcessingErrorMessage, e)
    case NumberFormat(d) => Unchecked(d)
  }

  /** One more file in a pass: its command is appended, and a failure there is the first one. */
  lemma PassStep(outcomeOf: seq<string> -> NpmOutcome, host: Host, files: seq<File>, i: nat)
    requires i < |files|
    requires var outs := Outcomes(outcomeOf, host, files);
             forall j :: 0 <= j < i ==> !Failed(outs[j])
    ensures Commands(host, files[..i + 1]) == Commands(host, files[..i]) + [Command(host, files[i])]
    ensures var outs := Outcomes(outcomeOf, host, files);
            Failed(outs[i]) ==> RunCount(outs) == i + 1 && PassOutcome(outs) == PassFailure(outs[i].value)
  {
    MapSeqSnoc(f => Command(host, f), files, i);
    var outs := Outcomes(outcomeOf, host, files);
    if Failed(outs[i]) {
      assert FirstWhere(outs, Failed) == i;
    }
  }

  /** A pass in which no file failed. */
  lemma PassEnd(outcomeOf: seq<string> -> NpmOutcome, host: Host, files: seq<File>)
    requires var outs := Outcomes(outcomeOf, host, files);
             forall j :: 0 <= j < |files| ==> !Failed(outs[j])
    ensures var outs := Outcomes(outcomeOf, host, files);
            RunCount(outs) == |files| && PassOutcome(outs) == Done
  {
    var outs := Outcomes(outcomeOf, host, files);
    var k := FirstWhere(outs, Failed);
    assert !(k < |outs|);
  }

  /** A pass ends normally exactly when no run of the tool fails, and then every file was compiled. */
  lemma CleanPass(outcomeOf: seq<string> -> NpmOutcome, host: Host, files: seq<File>)
    ensures var outs := Outcomes(outcomeOf, host, files);
            (PassOutcome(outs) == Done <==>
               forall i :: 0 <= i < |files| ==> outcomeOf(Command(host, files[i])).thrown.None?)
    ensures var outs := Outcomes(outcomeOf, host, files);
            PassOutcome(outs) == Done ==> RunCount(outs) == |files|
  {
    var outs := Outcomes(outcomeOf, host, files);
    forall i | 0 <= i < |files|
      ensures outs[i].None? <==> outcomeOf(Command(host, files[i])).thrown.None?
    {
      OutcomesAt(outcomeOf, host, files, i);
    }
  }

  /**
   * A pass that fails stops at the first file whose run fails: the files before it were
   * compiled without error, the later ones not at all, and a WatchingException about that
   * very file is wrapped with the processing message.
   */
  lemma FailedPass(outcomeOf: seq<string> -> NpmOutcome, host: Host, files: seq<File>)
    ensures var outs := Outcomes(outcomeOf, host, files);
            PassOutcome(outs) != Done ==>
              exists k :: 0 <= k < |files| && RunCount(outs) == k + 1
                && outcomeOf(Command(host, files[k])).thrown.Some?
                && (forall j :: 0 <= j < k ==> outcomeOf(Command(host, files[j])).thrown.None?)
                && (PassOutcome(outs).MojoFailure? ==>
                      PassOutcome(outs).message == ProcessingErrorMessage
                      && PassOutcome(outs).cause.file == files[k])
  {
    var outs := Outcomes(outcomeOf, host, files);
    var k := FirstWhere(outs, Failed);
    if k < |outs| {
      forall j | 0 <= j < k
        ensures outcomeOf(Command(host, files[j])).thrown.None?
      {
        OutcomesAt(outcomeOf, host, files, j);
      }
      OutcomesAt(outcomeOf, host, files, k);
    }
  }

  /**
   * The failure the test suite expects when a created file does not parse: the tool fails
   * and writes "[Error: <path>:10:<column>: Unexpected end of input" after blank lines;
   * the exception is located at line 10 with that message, on the file that was handed
   * to the hook, whatever path the tool printed.
   */
  lemma ErroneousFileReported(outcome: NpmOutcome, input: File, path: string, column: nat)
    requires outcome.thrown.Some?
    requires outcome.errorStream == Some("\n\n" + ReportLine(path, 10, column, " " + EndOfInput))
    requires NoLineTerminator(path) && 0 < column <= MaxInt
    ensures Raised(outcome, input)
         == Some(Watching(WatchingException(CompilationErrorTitle, EndOfInput, input, Some(10), Some(column), None)))
  {
    UnexpectedEndOfInput(path, column, input);
  }

  class TraceurMojo {
    const host: Host
    /** The Traceur version to resolve. */
    const version: string
    /** The NPM handle, set by Execute; null before. */
    var npm: Npm?

    constructor(host: Host, version: string)
      ensures this.host == host && this.version == version && npm == null
    {
      this.host := host;
      this.version := version;
      npm := null;
    }

    /** A mojo whose `version` parameter is not configured: it takes its default. */
    constructor WithDefaultVersion(host: Host)
      ensures this.host == host && version == DefaultVersion && npm == null
    {
      this.host := host;
      version := DefaultVersion;
      npm := null;
    }

    /**
     * execute(): `resolved` is the handle NPM.npm(this, NPM_NAME, version) returns. Every
     * asset is processed in order; the first failure ends the pass, a WatchingException
     * wrapped in a MojoExecutionException, a NumberFormatException as it is.
     */
    method Execute(resolved: Npm) returns (r: ExecuteOutcome)
      requires resolved.name == NpmName && resolved.version == version
      modifies this, resolved
      ensures npm == resolved
      ensures var files := Assets(host);
              var outs := Outcomes(resolved.outcomeOf, host, files);
              var n := RunCount(outs);
              && resolved.invocations == old(resolved.invocations) + Commands(host, files[..n])
              && resolved.lastErrorStream
                   == (if n == 0 then old(resolved.lastErrorStream)
                       else resolved.outcomeOf(Command(host, files[n - 1])).errorStream)
              && r == PassOutcome(outs)
    {
      npm := resolved;
      var files := Assets(host);
      ghost var outs := Outcomes(resolved.outcomeOf, host, files);
      ghost var calls0 := resolved.invocations;
      ghost var stream0 := resolved.lastErrorStream;
      var i := 0;
      while i < |files|
        modifies resolved
        invariant 0 <= i <= |files|
        invariant forall j :: 0 <= j < i ==> !Failed(outs[j])
        invariant resolved.invocations == calls0 + Commands(host, files[..i])
        invariant resolved.lastErrorStream
                    == (if i == 0 then stream0 else resolved.outcomeOf(Command(host, files[i - 1])).errorStream)
      {
        var failure := ProcessAt(files, i, calls0);
        if failure.Some? {
          r := PassFailure(failure.value);
          return;
        }
        i := i + 1;
      }
      PassEnd(resolved.outcomeOf, host, files);
      assert files[..|files|] == files;
      r := Done;
    }

    /**
     * One round of execute's loop: process files[i], after the commands of files[..i] were
     * run from `calls0` with no failure. The failure, if any, is the i-th outcome of the pass
     * and ends it.
     */
    method ProcessAt(files: seq<File>, i: nat, ghost calls0: seq<seq<string>>) returns (failure: Option<Failure>)
      requires npm != null && i < |files|
      requires forall j :: 0 <= j < i ==> !Failed(Outcomes(npm.outcomeOf, host, files)[j])
      requires npm.invocations == calls0 + Commands(host, files[..i])
      modifies npm
      ensures failure == Outcomes(npm.outcomeOf, host, files)[i]
      ensures npm.invocations == calls0 + Commands(host, files[..i + 1])
      ensures npm.lastErrorStream == npm.outcomeOf(Command(host, files[i])).errorStream
      ensures failure.Some? ==>
                var outs := Outcomes(npm.outcomeOf, host, files);
                RunCount(outs) == i + 1 && PassOutcome(outs) == PassFailure(failure.value)
    {
      PassStep(npm.outcomeOf, host, files, i);
      failure := Process(files[i]);
      OutcomesAt(npm.outcomeOf, host, files, i);
    }

    /**
     * process(input): compile the filtered copy if there is one, into the output file of
     * the original input, and on failure throw the diagnostic built from the tool's last
     * error stream, or a generic one when that stream is null or empty.
     */
    method Process(input: File) returns (failure: Option<Failure>)
      requires npm != null
      modifies npm
      ensures npm.invocations == old(npm.invocations) + [Command(host, input)]
      ensures npm.lastErrorStream == npm.outcomeOf(Command(host, input)).errorStream
      ensures failure == Raised(npm.outcomeOf(Command(host, input)), input)
    {
      var filtered := host.filteredVersion(input);
      var compiled := if filtered.None? then input else filtered.value;
      var output := host.outputFile(input);
      var thrown := npm.Execute(NpmName, ["--out", output.absolutePath, "--script", compiled.absolutePath]);
      assert [NpmName] + ["--out", output.absolutePath, "--script", compiled.absolutePath] == Command(host, input);
      if thrown.Some? {
        var stream := npm.lastErrorStream;
        if stream.Some? && stream.value != "" {
          var built := Build(stream.value, input);
          failure := Some(built);
        } else {
          failure := Some(Watching(WatchingException(CompilationErrorTitle,
            "Error while compiling " + input.absolutePath, input, None, None, thrown)));
        }
      } else {
        failure := None;
      }
    }

    /** fileCreated(file): process the file and return true. */
    method FileCreated(file: File) returns (r: HookOutcome)
      requires npm != null
      modifies npm
      ensures npm.invocations == old(npm.invocations) + [Command(host, file)]
      ensures npm.lastErrorStream == npm.outcomeOf(Command(host, file)).errorStream
      ensures r == match Raised(npm.outcomeOf(Command(host, file)), file)
                   case None => Returned(true)
                   case Some(f) => Threw(f)
    {
      var failure := Process(file);
      r := if failure.None? then Returned(true) else Threw(failure.value);
    }

    /** fileUpdated(file): the same as fileCreated(file). */
    method FileUpdated(file: File) returns (r: HookOutcome)
      requires npm != null
      modifies npm
      ensures npm.invocations == old(npm.invocations) + [Command(host, file)]
      ensures npm.lastErrorStream == npm.outcomeOf(Command(host, file)).errorStream
      ensures r == match Raised(npm.outcomeOf(Command(host, file)), file)
                   case None => Returned(true)
                   case Some(f) => Threw(f)
    {
      r := FileCreated(file);
    }

    /** fileDeleted(file): delete the file's ".js" output, quietly, and return true. */
    method FileDeleted(file: File) returns (r: bool, deleted: File)
      ensures r && deleted == host.outputFileWithExtension(file, OutputExtension)
    {
      deleted := host.outputFileWithExtension(file, OutputExtension);
      r := true;
    }
  }
}
