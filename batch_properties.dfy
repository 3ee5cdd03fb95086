/**
 * What running a use case section promises: exactly the runnable entries'
 * commands run, in their listed order, up to the first failure; nothing
 * runs for a missing or empty section; and, since the commands' output
 * goes to the terminal, no success line is ever logged.
 */
module BatchProperties {
  import opened Options
  import opened Usecase
  import opened Completion
  import opened Redaction
  import opened Runner
  import opened Batch

  /**
   * An entry without a description or a command changes nothing; any
   * other entry runs exactly its command, and ends the program exactly
   * when that command fails, with its return code.
   */
  lemma EntryStepRuns(s: SessionState, c: Config, entry: Entry, now: int, shell: Shell)
    ensures var r := EntryStep(s, c, entry, now, shell);
      && (!Runnable(entry) ==> r == Step(s, Return(())))
      && (Runnable(entry) ==>
            && r.session.executed == s.executed + [entry["command"]]
            && (r.outcome.Exit? <==> shell(entry["command"]).returnCode != 0)
            && (r.outcome.Exit? ==> r.outcome.code == shell(entry["command"]).returnCode))
  {
  }

  /**
   * The filter works entry by entry: the commands selected from two lists
   * one after the other are those selected from each, in the same order.
   */
  lemma {:induction false} SelectedConcat(a: seq<Entry>, b: seq<Entry>)
    ensures Selected(a + b) == Selected(a) + Selected(b)
    decreases |a|
  {
    if a != [] {
      assert (a + b)[0] == a[0] && (a + b)[1..] == a[1..] + b;
      SelectedConcat(a[1..], b);
    } else {
      assert a + b == b;
    }
  }

  /** One entry contributes its command exactly when it is runnable. */
  lemma SelectedOne(entry: Entry)
    ensures Selected([entry]) == if Runnable(entry) then [entry["command"]] else []
  {
    assert [entry][1..] == [];
  }

  /** The entries return exactly when every selected command succeeds. */
  lemma {:induction false} EntriesReturnIff(s: SessionState, c: Config, entries: seq<Entry>, now: int, shell: Shell)
    ensures EntriesStep(s, c, entries, now, shell).outcome.Return? <==> AllSucceed(Selected(entries), shell)
    decreases |entries|
  {
    if entries != [] {
      var first := EntryStep(s, c, entries[0], now, shell);
      EntryStepRuns(s, c, entries[0], now, shell);
      var tail := Selected(entries[1..]);
      if first.outcome.Return? {
        EntriesReturnIff(first.session, c, entries[1..], now, shell);
        assert EntriesStep(s, c, entries, now, shell) == EntriesStep(first.session, c, entries[1..], now, shell);
        if Runnable(entries[0]) {
          assert Selected(entries) == [entries[0]["command"]] + tail;
          AllSucceedPrepend(entries[0]["command"], tail, shell);
        } else {
          assert Selected(entries) == tail;
        }
      } else {
        assert Selected(entries)[0] == entries[0]["command"];
      }
    }
  }

  /** When the entries return, the selected commands ran, all of them, in their listed order. */
  lemma {:induction false} EntriesReturnExecuted(s: SessionState, c: Config, entries: seq<Entry>, now: int, shell: Shell)
    ensures var r := EntriesStep(s, c, entries, now, shell);
      r.outcome.Return? ==> r.session.executed == s.executed + Selected(entries)
    decreases |entries|
  {
    if entries != [] {
      var first := EntryStep(s, c, entries[0], now, shell);
      if first.outcome.Return? {
        EntryStepRuns(s, c, entries[0], now, shell);
        EntriesReturnExecuted(first.session, c, entries[1..], now, shell);
      }
    }
  }

  /**
   * When the entries end the program, they stopped at one selected
   * command: the ones before it succeeded and exactly the ones up to it ran.
   */
  lemma {:induction false} EntriesStop(s: SessionState, c: Config, entries: seq<Entry>, now: int, shell: Shell)
    ensures var r := EntriesStep(s, c, entries, now, shell);
      r.outcome.Exit? ==> exists k :: StoppedAt(s, r, Selected(entries), k, shell)
    decreases |entries|
  {
    var r := EntriesStep(s, c, entries, now, shell);
    if entries != [] && r.outcome.Exit? {
      var first := EntryStep(s, c, entries[0], now, shell);
      EntryStepRuns(s, c, entries[0], now, shell);
      var tail := Selected(entries[1..]);
      if first.outcome.Exit? {
        assert Selected(entries)[..1] == [entries[0]["command"]];
        assert StoppedAt(s, r, Selected(entries), 0, shell);
      } else {
        EntriesStop(first.session, c, entries[1..], now, shell);
        assert r == EntriesStep(first.session, c, entries[1..], now, shell);
        var k: nat :| StoppedAt(first.session, r, tail, k, shell);
        if Runnable(entries[0]) {
          assert Selected(entries) == [entries[0]["command"]] + tail;
          StoppedAtPrepend(s, first.session, r, entries[0]["command"], tail, k, shell);
        } else {
          assert Selected(entries) == tail && first.session == s;
        }
      }
    }
  }

  /**
   * `executeCommandsFromUsecaseFile` runs nothing and logs nothing for a
   * missing or empty section; otherwise it logs the caller's message first
   * and runs the selected commands in order: all of them when all succeed,
   * and up to the first failure otherwise, whose return code ends the
   * program.
   */
  lemma ExecuteRunsSelected(s: SessionState, c: Config, definition: UsecaseDefinition, message: string,
                            section: string, now: int, shell: Shell)
    ensures var r := ExecuteStep(s, c, definition, message, section, now, shell);
      && (!(section in definition && |definition[section]| > 0) ==> r == Step(s, Return(())))
      && (section in definition && |definition[section]| > 0 ==>
            var commands := Selected(definition[section]);
            var s0 := s.(log := s.log + [Header(message)]);
            && (r.outcome.Return? <==> AllSucceed(commands, shell))
            && (r.outcome.Return? ==> r.session.executed == s.executed + commands)
            && (r.outcome.Exit? ==> exists k :: StoppedAt(s0, r, commands, k, shell)))
  {
    if section in definition && |definition[section]| > 0 {
      var s0 := s.(log := s.log + [Header(message)]);
      EntriesReturnIff(s0, c, definition[section], now, shell);
      EntriesReturnExecuted(s0, c, definition[section], now, shell);
      EntriesStop(s0, c, definition[section], now, shell);
    }
  }

  /** No line of a log is a success line. */
  ghost predicate NoSuccess(log: seq<LogEntry>) {
    forall i :: 0 <= i < |log| ==> !log[i].Success?
  }

  /**
   * An entry only appends to the log, and never a success line: its
   * command's output goes to the terminal, so there is no captured output
   * to log.
   */
  lemma EntryLogsNoSuccess(s: SessionState, c: Config, entry: Entry, now: int, shell: Shell)
    ensures var r := EntryStep(s, c, entry, now, shell);
      s.log <= r.session.log && NoSuccess(r.session.log[|s.log|..])
  {
    if Runnable(entry) {
      var r := EntryStep(s, c, entry, now, shell);
      var added := EntryLogLines(s, c, entry, now, shell);
      assert r.session.log[|s.log|..] == added;
    }
  }

  /**
   * What a runnable entry logs, in order: its description as a heading,
   * the "Executing" message, the command's redacted lines and, when the
   * command fails, the fixed message (its output went to the terminal).
   */
  function EntryLog(c: Config, description: string, command: string, shell: Shell): seq<LogEntry> {
    [Header(CommandHeading + description)]
      + InfoEntries("INFO", Some(ExecutingMessage(command)))
      + CommandEntries(RedactedLines(command, c.logcommands))
      + (if shell(command).returnCode != 0 then [Error(UnknownErrorMessage)] else [])
  }

  /** The lines a runnable entry adds to the log: its heading first, and no success line. */
  lemma EntryLogLines(s: SessionState, c: Config, entry: Entry, now: int, shell: Shell) returns (added: seq<LogEntry>)
    requires Runnable(entry)
    ensures added == EntryLog(c, entry["description"], entry["command"], shell)
    ensures added[0] == Header(CommandHeading + entry["description"])
    ensures EntryStep(s, c, entry, now, shell).session.log == s.log + added
    ensures NoSuccess(added)
  {
    added := RunEntryLogLines(s, c, entry["description"], entry["command"], now, shell);
  }

  lemma RunEntryLogLines(s: SessionState, c: Config, description: string, command: string, now: int, shell: Shell)
    returns (added: seq<LogEntry>)
    ensures added == EntryLog(c, description, command, shell)
    ensures RunEntry(s, c, description, command, now, shell).session.log == s.log + added
    ensures NoSuccess(added)
  {
    var head := [Header(CommandHeading + description)];
    var s1 := s.(log := s.log + head);
    var info := Some(ExecutingMessage(command));
    var lines := RedactedLines(command, c.logcommands);
    var errors := RunEntryErrors(s1, c, command, now, shell);
    added := head + InfoEntries("INFO", info) + CommandEntries(lines) + errors;
    assert RunEntry(s, c, description, command, now, shell).session.log
      == s1.log + InfoEntries("INFO", info) + CommandEntries(lines) + errors;
    assert s1.log + InfoEntries("INFO", info) + CommandEntries(lines) + errors == s.log + added;
    RunLinesNoSuccess(head, info, lines, errors);
  }

  /** What a runnable entry logs after its command lines: nothing, or the fixed message when it fails. */
  lemma RunEntryErrors(s1: SessionState, c: Config, command: string, now: int, shell: Shell)
    returns (errors: seq<LogEntry>)
    ensures errors == if shell(command).returnCode != 0 then [Error(UnknownErrorMessage)] else []
    ensures var info := Some(ExecutingMessage(command));
      var run := RunStep(s1, c, command, "INFO", info, true, true, now, shell);
      var fin := if run.outcome.Exit? then run.session
                 else run.session.(log := run.session.log + SuccessEntries(run.outcome.value));
      fin.log == s1.log + InfoEntries("INFO", info) + CommandEntries(RedactedLines(command, c.logcommands)) + errors
    ensures NoSuccess(errors)
  {
    var info := Some(ExecutingMessage(command));
    var run := RunStep(s1, c, command, "INFO", info, true, true, now, shell);
    if run.outcome.Return? {
      assert SuccessEntries(run.outcome.value) == [];
      ReturnLogs(s1, c, command, "INFO", info, true, true, now, shell);
      errors := [];
    } else {
      ExitLogsUnknownError(s1, c, command, "INFO", info, true, now, shell);
      errors := [Error(UnknownErrorMessage)];
    }
  }

  lemma RunLinesNoSuccess(head: seq<LogEntry>, info: Option<string>, lines: seq<string>, errors: seq<LogEntry>)
    requires NoSuccess(head) && NoSuccess(errors)
    ensures NoSuccess(head + InfoEntries("INFO", info) + CommandEntries(lines) + errors)
  {
    var all := head + InfoEntries("INFO", info) + CommandEntries(lines) + errors;
    var n := |head| + |InfoEntries("INFO", info)|;
    forall i | 0 <= i < |all|
      ensures !all[i].Success?
    {
      if i < |head| {
        assert all[i] == head[i];
      } else if i < n {
        assert all[i] == InfoEntries("INFO", info)[i - |head|];
      } else if i < n + |lines| {
        assert all[i] == CommandEntries(lines)[i - n];
      } else {
        assert all[i] == errors[i - n - |lines|];
      }
    }
  }

  /** Running the entries only appends to the log, and never a success line. */
  lemma {:induction false} EntriesLogNoSuccess(s: SessionState, c: Config, entries: seq<Entry>, now: int, shell: Shell)
    ensures var r := EntriesStep(s, c, entries, now, shell);
      s.log <= r.session.log && NoSuccess(r.session.log[|s.log|..])
    decreases |entries|
  {
    if entries != [] {
      var first := EntryStep(s, c, entries[0], now, shell);
      EntryLogsNoSuccess(s, c, entries[0], now, shell);
      if first.outcome.Return? {
        var r := EntriesStep(first.session, c, entries[1..], now, shell);
        EntriesLogNoSuccess(first.session, c, entries[1..], now, shell);
        forall i | |s.log| <= i < |r.session.log|
          ensures !r.session.log[i].Success?
        {
          if i < |first.session.log| {
            assert r.session.log[i] == first.session.log[i] == first.session.log[|s.log|..][i - |s.log|];
          } else {
            assert r.session.log[i] == r.session.log[|first.session.log|..][i - |first.session.log|];
          }
        }
      }
    }
  }
}
