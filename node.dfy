/**
 * The NPM handle through which the mojo runs Traceur. Resolving and running the external
 * process is not modelled: what one run yields is given by `outcomeOf`, a function of the
 * argument vector. What is modelled is the handle's state: every run it was asked for, and
 * the error stream of the last run, which stays readable after the run returns.
 */
module Node {
  import opened Common

  /** The MojoExecutionException thrown when a run of the tool fails. */
  datatype NpmFailure = NpmFailure(message: string)

  /** What one run yields: the exception it throws, if any, and the error stream it leaves. */
  datatype NpmOutcome = NpmOutcome(thrown: Option<NpmFailure>, errorStream: Option<string>)

  class Npm {
    /** The NPM package and version the handle was resolved for. */
    const name: string
    const version: string
    /** The outcome of running the tool with a given argument vector (binary first). */
    const outcomeOf: seq<string> -> NpmOutcome
    /** The argument vectors run so far, oldest first. */
    var invocations: seq<seq<string>>
    /** getLastErrorStream(): the error stream of the most recent run (null: None). */
    var lastErrorStream: Option<string>

    constructor(name: string, version: string, outcomeOf: seq<string> -> NpmOutcome)
      ensures this.name == name && this.version == version && this.outcomeOf == outcomeOf
      ensures invocations == [] && lastErrorStream == None
    {
      this.name := name;
      this.version := version;
      this.outcomeOf := outcomeOf;
      invocations := [];
      lastErrorStream := None;
    }

    /** npm.execute(binary, args...): runs the tool, keeps its error stream, may throw. */
    method Execute(binary: string, args: seq<string>) returns (thrown: Option<NpmFailure>)
      modifies this
      ensures invocations == old(invocations) + [[binary] + args]
      ensures lastErrorStream == outcomeOf([binary] + args).errorStream
      ensures thrown == outcomeOf([binary] + args).thrown
    {
      var outcome := outcomeOf([binary] + args);
      invocations := invocations + [[binary] + args];
      lastErrorStream := outcome.errorStream;
      thrown := outcome.thrown;
    }
  }
}
