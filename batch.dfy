/**
 * `executeCommandsFromUsecaseFile`: run the commands listed in one section
 * of the (already parsed) use case definition, in order, each of them
 * fatal when it fails.
 */
module Batch {
  import opened Options
  import opened Usecase
  import opened Completion
  import opened Runner

  /** One listed entry: a JSON object whose fields are read as strings. */
  type Entry = map<string, string>

  /** The parsed use case definition: named sections of entries. */
  type UsecaseDefinition = map<string, seq<Entry>>

  const CommandHeading: string := "COMMAND EXECUTION: "

  /** An entry is run only when it has both a description and a command. */
  predicate Runnable(entry: Entry) {
    "description" in entry && "command" in entry
  }

  /** The commands of the runnable entries, in their listed order. */
  function Selected(entries: seq<Entry>): (commands: seq<string>)
    ensures |commands| <= |entries|
    ensures (forall i :: 0 <= i < |entries| ==> !Runnable(entries[i])) ==> commands == []
  {
    if entries == [] then []
    else (if Runnable(entries[0]) then [entries[0]["command"]] else []) + Selected(entries[1..])
  }

  function ExecutingMessage(command: string): string {
    "Executing the following commands:\n" + command + "\n"
  }

  /** The process's captured output, logged as a success; nothing when it was not captured. */
  function SuccessEntries(p: ProcessResult): (entries: seq<LogEntry>)
    ensures entries != [] <==> p.output.Some?
  {
    match p.output
    case Some(o) => [Success(o.stdout)]
    case None => []
  }

  /**
   * One entry at time `now`: an entry without a description or a command
   * is skipped; otherwise its description is logged as a heading and its
   * command is run with the output on the terminal, every failure fatal.
   */
  function EntryStep(s: SessionState, c: Config, entry: Entry, now: int, shell: Shell): Step<()> {
    if !Runnable(entry) then Step(s, Return(()))
    else RunEntry(s, c, entry["description"], entry["command"], now, shell)
  }

  /** A runnable entry: its description as a heading, then its command, every failure fatal. */
  function RunEntry(s: SessionState, c: Config, description: string, command: string, now: int, shell: Shell): Step<()> {
    var s1 := s.(log := s.log + [Header(CommandHeading + description)]);
    var run := RunStep(s1, c, command, "INFO", Some(ExecutingMessage(command)), true, true, now, shell);
    if run.outcome.Exit? then Step(run.session, Done(run.outcome))
    else Step(run.session.(log := run.session.log + SuccessEntries(run.outcome.value)), Return(()))
  }

  /** The entries in order, stopping at the first that ends the program. */
  function EntriesStep(s: SessionState, c: Config, entries: seq<Entry>, now: int, shell: Shell): Step<()>
    decreases |entries|
  {
    if entries == [] then Step(s, Return(()))
    else
      var r := EntryStep(s, c, entries[0], now, shell);
      if r.outcome.Exit? then r else EntriesStep(r.session, c, entries[1..], now, shell)
  }

  /**
   * `executeCommandsFromUsecaseFile` at time `now`: nothing when the
   * section is missing or empty; otherwise the caller's message as a
   * heading, then the entries.
   */
  function ExecuteStep(s: SessionState, c: Config, definition: UsecaseDefinition, message: string,
                       section: string, now: int, shell: Shell): Step<()> {
    if section in definition && |definition[section]| > 0 then
      EntriesStep(s.(log := s.log + [Header(message)]), c, definition[section], now, shell)
    else
      Step(s, Return(()))
  }

  /** One step of `EntriesStep`, taken at position `i` of the entries. */
  lemma EntriesStepUnfold(s: SessionState, c: Config, entries: seq<Entry>, i: nat, now: int, shell: Shell, r: Step<()>)
    requires i < |entries|
    requires r == EntryStep(s, c, entries[i], now, shell)
    ensures EntriesStep(s, c, entries[i..], now, shell)
      == if r.outcome.Exit? then r else EntriesStep(r.session, c, entries[i + 1..], now, shell)
  {
    assert entries[i..][1..] == entries[i + 1..];
  }

  /** Runs one entry. */
  method ExecuteEntry(u: BtpUsecase, entry: Entry, now: int, shell: Shell) returns (outcome: Outcome<()>)
    modifies u`timeLastCliLogin, u`relogins, u`log, u`executed
    ensures Step(u.Session(), outcome) == EntryStep(old(u.Session()), u.Settings(), entry, now, shell)
  {
    if "description" in entry && "command" in entry {
      var message := entry["description"];
      var thisCommand := entry["command"];
      u.log := u.log + [Header(CommandHeading + message)];
      var p := RunShellCommandFlex(u, thisCommand, "INFO", Some(ExecutingMessage(thisCommand)), true, true, now, shell);
      if p.Exit? {
        return Done(p);
      }
      u.log := u.log + SuccessEntries(p.value);
    }
    return Return(());
  }

  /** The loop over the entries of the section. */
  method ExecuteEntries(u: BtpUsecase, entries: seq<Entry>, now: int, shell: Shell) returns (outcome: Outcome<()>)
    modifies u`timeLastCliLogin, u`relogins, u`log, u`executed
    ensures Step(u.Session(), outcome) == EntriesStep(old(u.Session()), u.Settings(), entries, now, shell)
  {
    ghost var spec := EntriesStep(u.Session(), u.Settings(), entries, now, shell);
    assert entries[0..] == entries;
    for i := 0 to |entries|
      invariant spec == EntriesStep(u.Session(), u.Settings(), entries[i..], now, shell)
    {
      ghost var before := u.Session();
      var entryOutcome := ExecuteEntry(u, entries[i], now, shell);
      EntriesStepUnfold(before, u.Settings(), entries, i, now, shell, Step(u.Session(), entryOutcome));
      if entryOutcome.Exit? {
        return entryOutcome;
      }
    }
    return Return(());
  }

  /** `executeCommandsFromUsecaseFile`, on the parsed definition. */
  method ExecuteCommandsFromUsecaseFile(u: BtpUsecase, definition: UsecaseDefinition, message: string,
                                        section: string, now: int, shell: Shell)
    returns (outcome: Outcome<()>)
    modifies u`timeLastCliLogin, u`relogins, u`log, u`executed
    ensures Step(u.Session(), outcome)
      == ExecuteStep(old(u.Session()), u.Settings(), definition, message, section, now, shell)
  {
    if section in definition && |definition[section]| > 0 {
      var commands := definition[section];
      u.log := u.log + [Header(message)];
      outcome := ExecuteEntries(u, commands, now, shell);
    } else {
      outcome := Return(());
    }
  }
}
