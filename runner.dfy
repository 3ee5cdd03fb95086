/**
 * `runShellCommandFlex`: log the caller's message, pass the re-login gate,
 * log the (redacted) command, run it, and either return the completed
 * process or end the program.
 */
module Runner {
  import opened Options
  import opened Usecase
  import opened Redaction
  import opened Completion
  import opened Gate

  /** The shell, as far as the runner can see it: what a command reports when run. */
  type Shell = string -> Reply

  /** The session after a call, and whether the call returned or ended the program. */
  datatype Step<+T> = Step(session: SessionState, outcome: Outcome<T>)

  /** The caller's message, logged at its severity; an unknown severity logs nothing. */
  function InfoEntries(format: string, info: Option<string>): (entries: seq<LogEntry>)
    ensures |entries| <= 1
    ensures entries != [] <==> info.Some? && format in {"INFO", "CHECK", "WARN"}
    ensures forall i :: 0 <= i < |entries| ==> entries[i].text == info.value && !entries[i].Error?
  {
    if info.None? then []
    else if format == "INFO" then [Info(info.value)]
    else if format == "CHECK" then [Check(info.value)]
    else if format == "WARN" then [Warning(info.value)]
    else []
  }

  function CommandEntries(lines: seq<string>): seq<LogEntry> {
    seq(|lines|, i requires 0 <= i < |lines| => Command(lines[i]))
  }

  function ErrorEntries(lines: seq<string>): seq<LogEntry> {
    seq(|lines|, i requires 0 <= i < |lines| => Error(lines[i]))
  }

  /**
   * One call of `runShellCommandFlex` at time `now`. Exactly one process is
   * started; the gate alone decides the login time and the re-logins; the
   * log grows by the message, the redacted command lines (none when
   * command logging is off) and, only when the program ends, the process's
   * captured output or the fixed message; a zero return code or a failure
   * the caller accepts returns the process, any other failure ends the
   * program with the process's return code.
   */
  function RunStep(s: SessionState, c: Config, command: string, format: string, info: Option<string>,
                   exitIfError: bool, noPipe: bool, now: int, shell: Shell): (r: Step<ProcessResult>)
    ensures r.session.executed == s.executed + [command]
    ensures r.session.myemail == s.myemail
    ensures r.outcome.Exit? <==> shell(command).returnCode != 0 && exitIfError
    ensures r.outcome.Exit? ==> r.outcome.code == shell(command).returnCode
    ensures r.outcome.Return? ==> r.outcome.value == Completed(shell(command), noPipe)
  {
    var s1 := s.(log := s.log + InfoEntries(format, info));
    var s2 := GateStep(s1, c.definedEnvironments, command, now);
    var s3 := s2.(log := s2.log + CommandEntries(RedactedLines(command, c.logcommands)));
    var s4 := s3.(executed := s3.executed + [command]);
    var d := Dispatch(Completed(shell(command), noPipe), exitIfError);
    Step(s4.(log := s4.log + ErrorEntries(d.errors)), d.outcome)
  }

  /** The log grows by the caller's message, the redacted command lines and the dispatched errors. */
  lemma RunLogGrowth(s: SessionState, c: Config, command: string, format: string, info: Option<string>,
                     exitIfError: bool, noPipe: bool, now: int, shell: Shell)
    ensures var r := RunStep(s, c, command, format, info, exitIfError, noPipe, now, shell);
      var d := Dispatch(Completed(shell(command), noPipe), exitIfError);
      r.session.log
        == s.log + InfoEntries(format, info) + CommandEntries(RedactedLines(command, c.logcommands))
           + ErrorEntries(d.errors)
  {
    var s1 := s.(log := s.log + InfoEntries(format, info));
    var s2 := GateStep(s1, c.definedEnvironments, command, now);
    assert s2.log == s1.log;
  }

  /** A call that returns logs only the caller's message and the redacted command lines. */
  lemma ReturnLogs(s: SessionState, c: Config, command: string, format: string, info: Option<string>,
                   exitIfError: bool, noPipe: bool, now: int, shell: Shell)
    requires RunStep(s, c, command, format, info, exitIfError, noPipe, now, shell).outcome.Return?
    ensures RunStep(s, c, command, format, info, exitIfError, noPipe, now, shell).session.log
      == s.log + InfoEntries(format, info) + CommandEntries(RedactedLines(command, c.logcommands))
  {
    RunLogGrowth(s, c, command, format, info, exitIfError, noPipe, now, shell);
    assert ErrorEntries(Dispatch(Completed(shell(command), noPipe), exitIfError).errors) == [];
  }

  /** A call that ends the program with its output on the terminal logs the fixed message last. */
  lemma ExitLogsUnknownError(s: SessionState, c: Config, command: string, format: string, info: Option<string>,
                             exitIfError: bool, now: int, shell: Shell)
    requires RunStep(s, c, command, format, info, exitIfError, true, now, shell).outcome.Exit?
    ensures RunStep(s, c, command, format, info, exitIfError, true, now, shell).session.log
      == s.log + InfoEntries(format, info) + CommandEntries(RedactedLines(command, c.logcommands))
         + [Error(UnknownErrorMessage)]
  {
    RunLogGrowth(s, c, command, format, info, exitIfError, true, now, shell);
    assert ErrorEntries(Dispatch(Completed(shell(command), true), exitIfError).errors) == [Error(UnknownErrorMessage)];
  }

  /** A call that ends the program with its output captured logs that output last, as two errors. */
  lemma ExitLogsCapturedOutput(s: SessionState, c: Config, command: string, format: string, info: Option<string>,
                               exitIfError: bool, now: int, shell: Shell)
    requires RunStep(s, c, command, format, info, exitIfError, false, now, shell).outcome.Exit?
    ensures RunStep(s, c, command, format, info, exitIfError, false, now, shell).session.log
      == s.log + InfoEntries(format, info) + CommandEntries(RedactedLines(command, c.logcommands))
         + [Error(shell(command).stdout), Error(shell(command).stderr)]
  {
    RunLogGrowth(s, c, command, format, info, exitIfError, false, now, shell);
    assert ErrorEntries(Dispatch(Completed(shell(command), false), exitIfError).errors)
      == [Error(shell(command).stdout), Error(shell(command).stderr)];
  }

  /** The login time and the re-logins after a call are the gate's alone. */
  lemma RunPassesGate(s: SessionState, c: Config, command: string, format: string, info: Option<string>,
                      exitIfError: bool, noPipe: bool, now: int, shell: Shell)
    ensures var r := RunStep(s, c, command, format, info, exitIfError, noPipe, now, shell);
      var g := GateStep(s, c.definedEnvironments, command, now);
      r.session.timeLastCliLogin == g.timeLastCliLogin && r.session.relogins == g.relogins
  {
  }

  /** A call whose process exits with 0 returns it and logs no error, whatever `exitIfError` says. */
  lemma SuccessNeverExits(s: SessionState, c: Config, command: string, format: string, info: Option<string>,
                          exitIfError: bool, noPipe: bool, now: int, shell: Shell)
    requires shell(command).returnCode == 0
    ensures var r := RunStep(s, c, command, format, info, exitIfError, noPipe, now, shell);
      && r.outcome.Return?
      && forall i :: |s.log| <= i < |r.session.log| ==> !r.session.log[i].Error?
  {
    ReturnLogs(s, c, command, format, info, exitIfError, noPipe, now, shell);
  }

  /** Every command of `commands` exits with 0. */
  ghost predicate AllSucceed(commands: seq<string>, shell: Shell) {
    forall k :: 0 <= k < |commands| ==> shell(commands[k]).returnCode == 0
  }

  lemma AllSucceedPrepend(command: string, commands: seq<string>, shell: Shell)
    ensures AllSucceed([command] + commands, shell) <==> shell(command).returnCode == 0 && AllSucceed(commands, shell)
  {
    var all := [command] + commands;
    assert all[0] == command;
    assert forall k :: 0 <= k < |commands| ==> all[k + 1] == commands[k];
  }

  /**
   * A sequence of fatal commands, run from `s` to `r`, stopped at command
   * `k`: the ones before it succeeded, command `k` failed, exactly the
   * ones up to and including `k` were run, and the program ends with the
   * return code of command `k`.
   */
  ghost predicate StoppedAt(s: SessionState, r: Step<()>, commands: seq<string>, k: nat, shell: Shell) {
    && k < |commands|
    && (forall j :: 0 <= j < k ==> shell(commands[j]).returnCode == 0)
    && shell(commands[k]).returnCode != 0
    && r.session.executed == s.executed + commands[..k + 1]
    && r.outcome == Exit(shell(commands[k]).returnCode)
  }

  /** A successful command in front of a sequence that stopped at `k` moves the stop to `k + 1`. */
  lemma StoppedAtPrepend(s: SessionState, mid: SessionState, r: Step<()>, command: string, commands: seq<string>,
                         k: nat, shell: Shell)
    requires mid.executed == s.executed + [command]
    requires shell(command).returnCode == 0
    requires StoppedAt(mid, r, commands, k, shell)
    ensures StoppedAt(s, r, [command] + commands, k + 1, shell)
  {
    var all := [command] + commands;
    assert all[..k + 2] == [command] + commands[..k + 1];
    assert forall j :: 1 <= j < |all| ==> all[j] == commands[j - 1];
  }

  /** Logs the caller's message at its severity. */
  method LogMessage(u: BtpUsecase, format: string, info: Option<string>)
    modifies u`log
    ensures u.log == old(u.log) + InfoEntries(format, info)
  {
    if info.Some? {
      if format == "INFO" {
        u.log := u.log + [Info(info.value)];
      }
      if format == "CHECK" {
        u.log := u.log + [Check(info.value)];
      }
      if format == "WARN" {
        u.log := u.log + [Warning(info.value)];
      }
    }
  }

  /** Runs the command, then returns the process or logs its output and ends the program. */
  method RunAndDispatch(u: BtpUsecase, command: string, exitIfError: bool, noPipe: bool, shell: Shell)
    returns (outcome: Outcome<ProcessResult>)
    modifies u`log, u`executed
    ensures var d := Dispatch(Completed(shell(command), noPipe), exitIfError);
      && outcome == d.outcome
      && u.log == old(u.log) + ErrorEntries(d.errors)
      && u.executed == old(u.executed) + [command]
  {
    var p := Completed(shell(command), noPipe);
    u.executed := u.executed + [command];
    var returnCode := p.returncode;
    if returnCode == 0 || !exitIfError {
      return Return(p);
    }
    if p.output.Some? {
      u.log := u.log + [Error(p.output.value.stdout), Error(p.output.value.stderr)];
    } else {
      u.log := u.log + [Error(UnknownErrorMessage)];
    }
    return Exit(returnCode);
  }

  /** The runner of the source, step by step. */
  method RunShellCommandFlex(u: BtpUsecase, command: string, format: string, info: Option<string>,
                             exitIfError: bool, noPipe: bool, now: int, shell: Shell)
    returns (outcome: Outcome<ProcessResult>)
    modifies u`timeLastCliLogin, u`relogins, u`log, u`executed
    ensures Step(u.Session(), outcome)
      == RunStep(old(u.Session()), u.Settings(), command, format, info, exitIfError, noPipe, now, shell)
  {
    LogMessage(u, format, info);
    CheckIfReLoginNecessary(u, command, now);
    var lines := CommandLogLines(command, u.logcommands);
    u.log := u.log + CommandEntries(lines);
    outcome := RunAndDispatch(u, command, exitIfError, noPipe, shell);
  }

  /** `runShellCommand`: every failure ends the program, and the output is captured. */
  method RunShellCommand(u: BtpUsecase, command: string, format: string, info: Option<string>, now: int, shell: Shell)
    returns (outcome: Outcome<ProcessResult>)
    modifies u`timeLastCliLogin, u`relogins, u`log, u`executed
    ensures Step(u.Session(), outcome) == RunStep(old(u.Session()), u.Settings(), command, format, info, true, false, now, shell)
  {
    outcome := RunShellCommandFlex(u, command, format, info, true, false, now, shell);
  }
}
