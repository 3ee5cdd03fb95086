# Command execution core of the BTP setup automator

This project models, in Dafny, the part of the BTP setup automator that runs
BTP CLI and Cloud Foundry CLI commands for a use case
(`libs/python/helperCommandExecution.py`). It proves what that code promises.

- **Command runner.** `runShellCommandFlex` logs the caller's message and
  passes the re-login gate. It logs the command with passwords masked, runs
  it, and then either hands the finished process back or ends the program
  with the process's return code.
- **Re-login gate.** `checkIfReLoginNecessary` tracks the time of the last
  login. A command starting with `btp login` or `cf login` sets that time to
  now and does nothing else. For any other command, a missing time is first
  set to now. Then, before a `btp ` or `cf ` command, the gate starts a BTP
  login, and a CF login when a `cloudfoundry` environment is defined. It does
  so only when the last login is more than 45 minutes old.
- **Logins.** `login_btp` and `login_cf` build the login commands by string
  concatenation and run them in a fixed order. `escapePassword` is applied to
  the password. `fetchEmailAddressFromBtpConfigFile` takes the user's e-mail
  address from the BTP CLI client configuration after an SSO login.
- **Batch runner.** `executeCommandsFromUsecaseFile` runs the entries of one
  use case section that have both a description and a command, in order.

## Structure

Each module is one file. A module that states properties sits next to the
module it is about.

| module | contents |
|---|---|
| `Options`, `Strings` | Python's `None`, `in`, `index`, clamped slices and `replace` on strings |
| `Redaction` | the lines logged for a command, and the loop that computes them |
| `Completion` | the finished process and the return-or-exit dispatch |
| `Usecase` | the use case object (`class BtpUsecase`), the environment scan and the e-mail update |
| `Gate` | the re-login gate: its step function, its method and its lemmas |
| `Runner` | `runShellCommandFlex` as a step function and as a method |
| `Login`, `LoginProperties` | the two login routines, `escapePassword`, and what they promise |
| `Batch`, `BatchProperties` | the use case section runner and what it promises |

Every method that changes the use case is proved equal to a step function on
a `SessionState` value. The session holds:

- the e-mail address;
- the time of the last login;
- the log;
- the commands handed to the shell;
- the re-logins the gate started.

The form is `ensures Step(u.Session(), outcome) == RunStep(old(u.Session()), ...)`.
The lemmas state the source's promises about these step functions.

The model leaves the world outside the source to its callers:

- The shell is a parameter `shell: string -> Reply`, giving the return code,
  stdout and stderr of each command.
- The clock is an integer number of seconds `now`. It is read once per
  top-level call, so every command of a login or a batch sees the same
  reading.
- Parsed JSON files are Dafny maps.
- `sys.exit(code)` is the outcome `Exit(code)`.

Observations from the code itself:

- **Redaction keeps one character after the marker.** The logged line is
  the command up to one character past the first marker found, then
  17 `x`s. For `password '<pw>'` that character is the opening quote. For
  ` -p <pw>` it is the password's first character, which reaches the log
  (`Redaction.ShortFlagKeepsFirstCharacter`).
- **No success line is ever logged.** The batch runner logs a process's
  stdout as a success only when stdout was captured. It runs every command
  with its output passed through to the terminal, so that line is never
  logged (`BatchProperties.EntriesLogNoSuccess`).
- **`escapePassword` is the identity.** It replaces each quote character by
  itself, so every password comes back unchanged; its only effect is the
  notice it logs (`Login.EscapedPassword`).
- **A re-login cannot nest, at one clock reading.** The BTP login sets the
  login time to the current time, so a CF login that follows it at the same
  reading starts no second re-login (`LoginProperties.ReLoginDoesNotNest`).
  With a real clock it could: the CF credential steps are gated commands, so
  if the BTP login and the earlier CF steps took more than 45 minutes, a
  later step would start a nested re-login. This is why the model records a
  re-login as the names of the two routines instead of running them inside
  the gate.

## Model

| member | source | states |
|---|---|---|
| Strings.Find | libs/python/helperCommandExecution.py:160 | the result is the first index where the substring occurs; None exactly when it occurs nowhere |
| Strings.IndexOf | libs/python/helperCommandExecution.py:162 | `command.index(marker)` is an occurrence, and no earlier index is one |
| Strings.Take | libs/python/helperCommandExecution.py:162 | a slice `s[0:n]` has length min(n, \|s\|) and is a prefix of `s` |
| Strings.TakeComparesPrefix | libs/python/helperCommandExecution.py:211-217 | comparing `command[0:\|p\|]` with `p` is exactly a prefix test |
| Strings.ReplaceChar | libs/python/helperCommandExecution.py:314-315 | `replace` of one character keeps the length and changes exactly the matching positions |
| Strings.ReplaceCharWithItself | libs/python/helperCommandExecution.py:314-315 | replacing a character by itself returns the string unchanged |
| Strings.FindAfterPrefix | libs/python/helperCommandExecution.py:160-162 | a marker placed after text that cannot overlap it is first found right after that text |
| Redaction.FirstMarker | libs/python/helperCommandExecution.py:158-160 | the index of the first of `password `, ` -p `, ` --p ` that the command contains, and none exactly when it contains none |
| Redaction.RedactedLines | libs/python/helperCommandExecution.py:155-172 | defines the lines logged for a command: none when command logging is off; otherwise the first marker's masked line, then the `cf auth` line, and the command itself only when neither applies (pinned down by the lemmas below) |
| Redaction.CommandLogLines | libs/python/helperCommandExecution.py:155-172 | the loop over the markers, with its `break` and the `foundPassword` flag, produces exactly the redacted lines |
| Redaction.NothingLoggedWhenDisabled | libs/python/helperCommandExecution.py:156 | with command logging off, no line is logged |
| Redaction.FirstMarkerLogged | libs/python/helperCommandExecution.py:158-170 | with first marker m, exactly one marker line is logged: the command up to index(m) + \|m\| + 1 (clamped), then 17 `x`s; the `cf auth` line follows exactly when `cf auth` occurs |
| Redaction.CfAuthLogged | libs/python/helperCommandExecution.py:168-170 | a command containing `cf auth` logs `cf auth xxxxxxxxxxxxxxxxx` last, and alone when it holds no marker |
| Redaction.VerbatimWithoutSecrets | libs/python/helperCommandExecution.py:171-172 | without markers and without `cf auth`, the command itself is the one line logged |
| Redaction.MaskedWithSecrets | libs/python/helperCommandExecution.py:158-172 | with a marker or `cf auth`, one or two lines are logged, and each ends with the mask |
| Redaction.ShortFlagKeepsFirstCharacter | libs/python/helperCommandExecution.py:158-164 | for a ` -p <value>` flag, the logged line is the text before the flag, the flag, the value's first character and the mask |
| Redaction.PasswordFlagMasked | libs/python/helperCommandExecution.py:158-164 | for a `password <value>` flag, the logged line keeps the text before the flag and only the value's first character |
| Completion.Completed | libs/python/helperCommandExecution.py:173-186 | the process carries the command's return code, and its output exactly when it was piped |
| Completion.Dispatch | libs/python/helperCommandExecution.py:186-200 | a zero code, or `exitIfError` false, returns the process and logs no error; otherwise the program ends with the same nonzero code after logging stdout and stderr, or the fixed message when nothing was captured |
| Usecase.MailIn | libs/python/helperCommandExecution.py:136-138 | defines the address recorded under `Authentication.Mail` in the client configuration, if any (the update rule is stated by `Usecase.FetchEmailAddressFromBtpConfigFile`) |
| Usecase.CheckIfCfEnvironmentIsDefined | libs/python/helperCommandExecution.py:256-260 | the scan answers true exactly when some defined environment is named `cloudfoundry` |
| Usecase.FetchEmailAddressFromBtpConfigFile | libs/python/helperCommandExecution.py:136-139 | returns the recorded address, and replaces the e-mail address with it only when it is recorded; nothing else changes |
| Gate.IsLoginCommand | libs/python/helperCommandExecution.py:211-217 | defines a login command as one whose first 9 characters are `btp login` or first 8 are `cf login`, compared on clamped slices |
| Gate.IsGatedCommand | libs/python/helperCommandExecution.py:229-253 | defines a gated command as a `btp ` command that is not `btp login`, or a `cf ` command that is not `cf login` |
| Gate.BtpAndCfExclusive | libs/python/helperCommandExecution.py:229-253 | no command starts with both `btp ` and `cf `, so at most one of the two re-login branches runs |
| Gate.GateStep | libs/python/helperCommandExecution.py:203-253 | a login command sets the time to now and starts nothing; otherwise a missing time becomes now, and a re-login (BTP, then CF when defined) runs exactly for a gated command more than 2700 s after the last login, setting the time to now; without one the time is unchanged; nothing else changes |
| Gate.CheckIfReLoginNecessary | libs/python/helperCommandExecution.py:203-253 | the step-by-step method leaves the use case exactly as the gate's step function says |
| Gate.ExactThresholdDoesNotTrigger | libs/python/helperCommandExecution.py:205-227 | exactly 2700 s after the last login, no re-login runs |
| Gate.OneSecondLateTriggers | libs/python/helperCommandExecution.py:222-253 | 2701 s after the last login, every gated command starts the full re-login sequence |
| Gate.NoSecondReLoginAtSameTime | libs/python/helperCommandExecution.py:211-227 | after a login or a gated command at time now, no command at the same time starts a re-login |
| Gate.OtherCommandsNeverReLogin | libs/python/helperCommandExecution.py:229-253 | commands that start with neither `btp ` nor `cf ` never start a re-login |
| Runner.InfoEntries | libs/python/helperCommandExecution.py:143-149 | the caller's message is logged once, with its text, exactly when it is given and its severity is INFO, CHECK or WARN |
| Runner.LogMessage | libs/python/helperCommandExecution.py:143-149 | the method appends exactly those entries |
| Runner.RunStep | libs/python/helperCommandExecution.py:142-200 | exactly the command is run; the e-mail address is kept; the program ends exactly when the code is nonzero and `exitIfError` holds, with that code; a returned process is the command's own |
| Runner.RunLogGrowth | libs/python/helperCommandExecution.py:142-200 | the log grows by the message, the redacted command lines and the dispatched errors, in that order |
| Runner.ReturnLogs | libs/python/helperCommandExecution.py:186-189 | a call that returns logs only the message and the redacted command lines |
| Runner.ExitLogsUnknownError | libs/python/helperCommandExecution.py:196-200 | a call that ends the program with output passed through logs the fixed message last |
| Runner.ExitLogsCapturedOutput | libs/python/helperCommandExecution.py:191-195 | a call that ends the program with output captured logs stdout and then stderr as errors, last |
| Runner.RunPassesGate | libs/python/helperCommandExecution.py:153 | the login time and the re-logins after a call are those the gate sets |
| Runner.SuccessNeverExits | libs/python/helperCommandExecution.py:188-189 | a zero return code always returns and logs no error, whatever `exitIfError` says |
| Runner.RunAndDispatch | libs/python/helperCommandExecution.py:173-200 | the method records the command and returns or ends the program as the dispatch says, appending its errors |
| Runner.RunShellCommand | libs/python/helperCommandExecution.py:12-13 | the wrapper runs the command with every failure fatal and the output captured |
| Runner.RunShellCommandFlex | libs/python/helperCommandExecution.py:142-200 | the method leaves the use case and returns exactly as the runner's step function says |
| Login.EscapedPassword | libs/python/helperCommandExecution.py:311-317 | the replacements return every password unchanged |
| Login.EscapePassword | libs/python/helperCommandExecution.py:311-317 | returns the password unchanged and logs the notice exactly when the password holds a quote |
| Login.BtpLoginCommand | libs/python/helperCommandExecution.py:90-123 | defines the BTP login command: the URL and subdomain part, then ` --sso`, or ` --user '<email>' --password '<password>'` (shape proved in `LoginProperties.BtpLoginCommandShape`) |
| Login.LoginBtpStep | libs/python/helperCommandExecution.py:84-124 | defines `login_btp` on the session: the SSO step or the credential step, by login method (properties in `LoginProperties.LoginBtpRunsOneLogin`) |
| Login.BtpSsoStep | libs/python/helperCommandExecution.py:97-105 | defines the SSO branch: the interactive login with output passed through and every failure fatal, then the e-mail update only when it returns |
| Login.BtpCredentialStep | libs/python/helperCommandExecution.py:106-124 | defines the credential branch: the escape notice, then the login with output captured and every failure fatal |
| Login.LoginBtp | libs/python/helperCommandExecution.py:84-124 | the method behaves as the `login_btp` step function for both login methods |
| Login.LoginBtpWithSso | libs/python/helperCommandExecution.py:97-105 | the SSO branch runs the login and then the e-mail update, as its step function says |
| Login.LoginBtpWithCredentials | libs/python/helperCommandExecution.py:106-124 | the credential branch escapes the password and runs the login with output captured, as its step function says |
| Login.CfSsoLoginCommand | libs/python/helperCommandExecution.py:44 | defines the interactive CF login `cf login -a '<endpoint>' -o '<org>' --sso` |
| Login.CfCredentialCommands | libs/python/helperCommandExecution.py:61-79 | defines the three credential steps in order: `cf api <endpoint>`, `cf auth <email> <password>`, `cf target -o <org>` |
| Login.RunSteps | libs/python/helperCommandExecution.py:60-81 | defines running commands in order, each after its message, with output captured and every failure fatal, stopping at the first that ends the program (properties in the `LoginProperties.RunSteps…` lemmas) |
| Login.LoginCfStep | libs/python/helperCommandExecution.py:16-81 | defines `login_cf` on the session: nothing without a `cloudfoundry` environment, otherwise the SSO login or the escape notice and the credential steps (properties in `LoginProperties.LoginCfCommands`) |
| Login.LoginCf | libs/python/helperCommandExecution.py:16-55 | the method behaves as the `login_cf` step function: nothing without CF, otherwise the SSO login or the credential steps |
| Login.RunInOrder | libs/python/helperCommandExecution.py:60-81 | the loop runs the commands in order, stopping at the first that ends the program, as the steps function says |
| Login.LoginCfWithCredentials | libs/python/helperCommandExecution.py:56-81 | escapes the password, then runs `cf api`, `cf auth`, `cf target` with their messages, as the steps function says |
| LoginProperties.BtpLoginIsLogin | libs/python/helperCommandExecution.py:90-96 | every BTP login command starts with `btp login --url 'https://cpcli.cf.`, so the gate treats it as a login |
| LoginProperties.BtpLoginCommandShape | libs/python/helperCommandExecution.py:90-123 | the SSO command is the shared part plus ` --sso`; the other is the shared part plus ` --user '<email>' --password '<password>'` |
| LoginProperties.CfSsoLoginIsLogin | libs/python/helperCommandExecution.py:44 | the interactive CF login starts with `cf login`, so the gate treats it as a login |
| LoginProperties.CfCredentialCommandsAreGated | libs/python/helperCommandExecution.py:61-81 | each of the three credential steps starts with `cf ` and is not a `cf login`, so the gate checks it |
| LoginProperties.BtpPasswordMasked | libs/python/helperCommandExecution.py:116-124 | with command logging on, the credential BTP login is logged up to the password's opening quote, then the mask |
| LoginProperties.QuotedPasswordMasked | libs/python/helperCommandExecution.py:158-164 | a quoted value after `password ` is logged as its opening quote and the mask |
| LoginProperties.CfAuthCommandMasked | libs/python/helperCommandExecution.py:70 | the `cf auth` step is logged as the fixed masked line alone when it holds no marker |
| LoginProperties.RunStepsKeepEmail | libs/python/helperCommandExecution.py:56-81 | the credential steps never change the e-mail address |
| LoginProperties.RunStepsReturnIff | libs/python/helperCommandExecution.py:56-81 | the steps return exactly when every command succeeds |
| LoginProperties.RunStepsReturnExecuted | libs/python/helperCommandExecution.py:56-81 | when the steps return, all the commands ran, in order |
| LoginProperties.RunStepsStop | libs/python/helperCommandExecution.py:56-81 | when the steps end the program, they stopped at one command: the earlier ones succeeded, exactly those up to it ran, and its code ends the program |
| LoginProperties.RunStepsAtLoginTime | libs/python/helperCommandExecution.py:56-81 | steps run at the time of the last login start no re-login and keep that time |
| LoginProperties.LoginBtpRunsOneLogin | libs/python/helperCommandExecution.py:84-124 | `login_btp` runs exactly one command, ends the program exactly when it fails, sets the login time without a re-login, and changes the e-mail only after a successful SSO login |
| LoginProperties.LoginCfCommands | libs/python/helperCommandExecution.py:16-81 | without CF nothing happens; SSO runs only the interactive login; otherwise `cf api`, `cf auth`, `cf target` run in order up to the first failure |
| LoginProperties.LoginCfAtLoginTime | libs/python/helperCommandExecution.py:16-81 | run at the time of the last login, `login_cf` starts no re-login and keeps that time |
| LoginProperties.ReLoginDoesNotNest | libs/python/helperCommandExecution.py:236-240 | the BTP login followed by the CF login at the same time starts no nested re-login and leaves the time at now |
| Batch.Selected | libs/python/helperCommandExecution.py:292-295 | the commands of the entries with both a description and a command, in order, never more than the entries |
| Batch.EntryStep | libs/python/helperCommandExecution.py:293-308 | defines one entry: skipped without both keys, otherwise `RunEntry` (properties in `BatchProperties.EntryStepRuns`) |
| Batch.RunEntry | libs/python/helperCommandExecution.py:294-308 | defines a runnable entry: its heading, then its command with output passed through and every failure fatal, then a success line only for captured output |
| Batch.EntriesStep | libs/python/helperCommandExecution.py:292-308 | defines the entries in order, stopping at the first that ends the program (properties in `BatchProperties.EntriesReturnIff`, `EntriesStop`) |
| Batch.ExecuteStep | libs/python/helperCommandExecution.py:288-308 | defines the section run: nothing for a missing or empty section, otherwise the caller's heading, then the entries (properties in `BatchProperties.ExecuteRunsSelected`) |
| Batch.SuccessEntries | libs/python/helperCommandExecution.py:306-308 | a success line is logged exactly when the process's output was captured |
| Batch.ExecuteEntry | libs/python/helperCommandExecution.py:293-308 | the method behaves as the entry's step function |
| Batch.ExecuteEntries | libs/python/helperCommandExecution.py:292-308 | the loop over the entries behaves as the entries' step function |
| Batch.ExecuteCommandsFromUsecaseFile | libs/python/helperCommandExecution.py:288-308 | the method behaves as the section's step function |
| BatchProperties.EntryStepRuns | libs/python/helperCommandExecution.py:293-305 | an entry lacking a key changes nothing; any other runs exactly its command and ends the program exactly when it fails, with its code |
| BatchProperties.SelectedConcat | libs/python/helperCommandExecution.py:292-295 | the filter works entry by entry: the commands selected from two lists in a row are those selected from each, in order |
| BatchProperties.SelectedOne | libs/python/helperCommandExecution.py:293-295 | one entry contributes its command exactly when it has both a description and a command |
| BatchProperties.EntriesReturnIff | libs/python/helperCommandExecution.py:292-305 | the entries return exactly when every selected command succeeds |
| BatchProperties.EntriesReturnExecuted | libs/python/helperCommandExecution.py:292-305 | when the entries return, exactly the selected commands ran, in order |
| BatchProperties.EntriesStop | libs/python/helperCommandExecution.py:292-305 | when the entries end the program, they stopped at one selected command, as for the CF steps |
| BatchProperties.ExecuteRunsSelected | libs/python/helperCommandExecution.py:288-305 | a missing or empty section runs and logs nothing; otherwise the selected commands run in order up to the first failure |
| BatchProperties.EntryLogsNoSuccess | libs/python/helperCommandExecution.py:296-308 | an entry only appends to the log, and never a success line |
| BatchProperties.EntryLog | libs/python/helperCommandExecution.py:296-305 | defines what a runnable entry logs, in order: the `COMMAND EXECUTION: ` heading with its description, the "Executing" message, the redacted command lines, and the fixed message when the command fails |
| BatchProperties.EntryLogLines | libs/python/helperCommandExecution.py:296-308 | a runnable entry appends exactly `EntryLog`: its heading first, and no success line |
| BatchProperties.EntriesLogNoSuccess | libs/python/helperCommandExecution.py:292-308 | running a section only appends to the log, and never a success line |

## Left out

- Running processes (`subprocess.run` with the environment variables from `getDictWithEnvVariables`): the shell is a total function from a command to its return code, stdout and stderr, and the model records the commands handed to it.
- Decoding stdout and stderr from bytes: the reply's output is already a string.
- `sys.exit`: it is the outcome `Exit(code)`, propagated by every caller. The code is not reduced to 8 bits, as a real process exit status would be.
- The clock: `time.time()` floats are an integer number of seconds, read once per top-level call, so a re-login and the command that triggered it see the same time. The source reads the clock again in every gate call (:209); the model does not capture time passing between the commands of one call.
- Batch.EntriesStep: every entry of a batch is gated at the same reading `now`, so once one entry has passed the gate, no later entry of that batch starts a re-login. In the source, a batch running longer than 45 minutes re-logs in at the first gated entry past the threshold.
- Login.RunSteps: the three CF credential steps are gated at the same reading `now`, so in the model `login_cf` starts at most one re-login and never a nested one. In the source, steps that run more than 45 minutes after the last login would start one.
- Gate.GateStep: the warning logged before a re-login, with the elapsed minutes formatted as `{:.2f}`, is not logged. The re-login is recorded as the names of the routines it runs, not as the routines' own commands and log lines. `LoginProperties.ReLoginDoesNotNest` shows that running them would not start a nested re-login. Two effects of really running them are therefore not captured. A failed BTP or CF login inside a re-login ends the program, and the command that triggered the re-login never runs. An SSO re-login replaces the e-mail address with the one in the client configuration. "Nothing else changes" holds of the recorded re-login only.
- Runner.RunStep: because the gate records a re-login instead of running it, the e-mail address is kept and the program ends only on the command's own failure. In the source, a re-login triggered by this command can also end the program with the failed login's return code before the command runs, and an SSO re-login can change the e-mail address.
- Login.LoginCf: in the SSO branch the source's message is a one-element tuple, because of a trailing comma, so the logger prints its representation. The model logs the string inside it.
- A missing `org` or `cfapiendpoint` in the account metadata (a `KeyError` in the source): the metadata is a record with both fields.
- `str(...)` on a missing e-mail address or global account in `login_btp`: both are strings in the model.
- Reading files (`getJsonFromFile`, `os.environ["BTP_CLIENTCONFIG"]`): the client configuration and the use case definition are given as already parsed maps whose values are strings. Entries with non-string values are not modelled.
- `runCommandFlexAndGetJsonResult` and `runCommandAndGetJsonResult`: thin wrappers that parse a command's output as JSON. JSON parsing is not part of this model.
- The logger: each call is a tagged entry (`Info`, `Check`, `Warning`, `Command`, `Error`, `Header`, `Success`) appended to the session's log. Formatting, levels and handlers are not modelled, and a `CHECK` entry stands for the project's custom `log.check`.
