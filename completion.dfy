/**
 * What `runShellCommandFlex` does with a finished process: hand it back to
 * the caller, or log its output as errors and end the program with its
 * return code. Ending the program is the outcome `Exit(code)`.
 */
module Completion {
  import opened Options

  /** What the shell reports for one command. */
  datatype Reply = Reply(returnCode: int, stdout: string, stderr: string)

  /** Standard output and standard error, when they were piped. */
  datatype Captured = Captured(stdout: string, stderr: string)

  /** The completed process: its return code, and its output if it was captured. */
  datatype ProcessResult = ProcessResult(returncode: int, output: Option<Captured>)

  /** A call either returns a value to its caller or ends the whole program. */
  datatype Outcome<+T> = Return(value: T) | Exit(code: int)

  /** Forgets a returned value, keeps an ended program. */
  function Done<T>(o: Outcome<T>): Outcome<()> {
    match o
    case Return(_) => Return(())
    case Exit(code) => Exit(code)
  }

  const UnknownErrorMessage: string :=
    "Something went wrong, but the script can not fetch the error message. Please check the log messages before."

  /** The outcome of the dispatch and the lines it logs as errors. */
  datatype Dispatched = Dispatched(outcome: Outcome<ProcessResult>, errors: seq<string>)

  /** The process as the caller sees it: output is captured only when not passed through. */
  function Completed(reply: Reply, noPipe: bool): (p: ProcessResult)
    ensures p.returncode == reply.returnCode
    ensures p.output.Some? <==> !noPipe
  {
    ProcessResult(reply.returnCode, if noPipe then None else Some(Captured(reply.stdout, reply.stderr)))
  }

  /**
   * A zero return code, or a failure the caller accepts, returns the process
   * unchanged and logs nothing; any other failure ends the program with the
   * process's own (nonzero) return code after logging the captured output,
   * or a fixed message when nothing was captured.
   */
  function Dispatch(p: ProcessResult, exitIfError: bool): (d: Dispatched)
    ensures d.outcome.Exit? <==> p.returncode != 0 && exitIfError
    ensures d.outcome.Return? ==> d.outcome.value == p && d.errors == []
    ensures d.outcome.Exit? ==> d.outcome.code == p.returncode != 0
    ensures d.outcome.Exit? ==> d.errors == match p.output
      case Some(o) => [o.stdout, o.stderr]
      case None => [UnknownErrorMessage]
  {
    if p.returncode == 0 || !exitIfError then
      Dispatched(Return(p), [])
    else
      var errors := match p.output
        case Some(o) => [o.stdout, o.stderr]
        case None => [UnknownErrorMessage];
      Dispatched(Exit(p.returncode), errors)
  }
}
