/**
 * The command runner (`runCommand`): turns what happened to the child
 * process into the `(status, stdout, stderr, err)` quadruple the rest of the
 * program works from. Spawning, stdin inheritance and the live tee to the
 * console are I/O; the model starts from the child's outcome.
 */
module Runner {
  import opened Wrappers
  import opened Text
  import opened Errors

  /** The program and arguments `exec.Command` is given. */
  datatype Exec = Exec(program: string, arguments: seq<string>)

  /** What `ExitError.Sys()` holds: a wait status (opaque integer) or something else. */
  datatype WaitInfo = WaitStatus(exitStatus: int) | OtherSys

  /**
   * How `cmd.Run()` ended, with the bytes the child wrote to each stream.
   * `Clean` is a nil error, `ExitError` is an `*exec.ExitError`, and
   * `RunError` is any other error (the program could not be started, or
   * copying its output failed).
   */
  datatype ChildOutcome =
    | Clean(stdout: Bytes, stderr: Bytes)
    | ExitError(sys: WaitInfo, stdout: Bytes, stderr: Bytes)
    | RunError(cause: string)

  /** `runCommand`'s four results; Go's nil buffers are the empty sequence. */
  datatype CommandResult = CommandResult(status: int, stdout: Bytes, stderr: Bytes, err: Option<Error>)

  /** The process `runCommand` starts for `args`, if any. */
  function Invocation(args: seq<string>): (r: Option<Exec>)
    ensures r.None? <==> |args| == 0
    ensures r.Some? ==> [r.value.program] + r.value.arguments == args
  {
    if |args| == 0 then None else Some(Exec(args[0], args[1..]))
  }

  /**
   * `runCommand(args)`, where `child` is the outcome of running
   * `Invocation(args)`; it is not consulted when there is nothing to run.
   */
  function RunCommand(args: seq<string>, child: ChildOutcome): (r: CommandResult)
    ensures |args| == 0 ==> r == CommandResult(0, [], [], Some(ProgramNotDefined))
    ensures r.err.Some? ==> r.status == 0 && r.stdout == [] && r.stderr == []
    ensures r.err.None? <==> |args| > 0 && !child.RunError?
    ensures |args| > 0 && child.RunError? ==> r.err == Some(RunFailed(child.cause))
    ensures r.err.None? ==> r.stdout == child.stdout && r.stderr == child.stderr
    ensures r.err.None? && child.ExitError? && child.sys.WaitStatus? ==> r.status == child.sys.exitStatus
    ensures r.err.None? && r.status != 0 ==> child.ExitError? && child.sys == WaitStatus(r.status)
  {
    if |args| == 0 then CommandResult(0, [], [], Some(ProgramNotDefined))
    else
      match child
      case Clean(out, err) => CommandResult(0, out, err, None)
      case ExitError(sys, out, err) =>
        var status := if sys.WaitStatus? then sys.exitStatus else 0;
        CommandResult(status, out, err, None)
      case RunError(cause) => CommandResult(0, [], [], Some(RunFailed(cause)))
  }
}
