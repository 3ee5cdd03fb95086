/**
 * `login_btp` and `login_cf`: the login commands for the BTP CLI and the
 * Cloud Foundry CLI, built by string concatenation and run through the
 * command runner in a fixed order; and `escapePassword`, which they apply
 * to the password.
 */
module Login {
  import opened Options
  import opened Strings
  import opened Usecase
  import opened Completion
  import opened Redaction
  import opened Gate
  import opened Runner

  const EscapeNotice: string := "escaping special characters in password"

  predicate NeedsEscaping(password: string) {
    '"' in password || '\'' in password
  }

  /** The notice `escapePassword` logs when the password holds a quote. */
  function EscapeLog(password: string): seq<LogEntry> {
    if NeedsEscaping(password) then [Info(EscapeNotice)] else []
  }

  /**
   * The replacements `escapePassword` makes: each quote character is
   * replaced by itself, so every password comes back exactly as it was.
   */
  function EscapedPassword(password: string): (escaped: string)
    ensures escaped == password
  {
    ReplaceCharWithItself(password, '"');
    ReplaceCharWithItself(password, '\'');
    ReplaceChar(ReplaceChar(password, '"', '"'), '\'', '\'')
  }

  /**
   * `escapePassword`: logs a notice when the password holds a quote and
   * only then makes the replacements. The login commands below are
   * therefore built from the configured password itself.
   */
  method EscapePassword(u: BtpUsecase, password: string) returns (escaped: string)
    modifies u`log
    ensures escaped == password
    ensures u.log == old(u.log) + EscapeLog(password)
  {
    escaped := password;
    if NeedsEscaping(password) {
      u.log := u.log + [Info(EscapeNotice)];
      escaped := EscapedPassword(escaped);
    }
  }

  const BtpLogin: string := "btp login"

  const BtpLoginPrefix: string := BtpLogin + " --url 'https://cpcli.cf."

  /** The part of the BTP login command shared by both login methods. */
  function BtpLoginBase(c: Config): string {
    BtpLoginPrefix + c.btpcliapihostregion + ".hana.ondemand.com' --subdomain '" + c.globalaccount + "'"
  }

  /** The part of the credential login command before the password marker. */
  function BtpUserPart(c: Config, myemail: string): string {
    BtpLoginBase(c) + " --user '" + myemail + "' --"
  }

  function BtpLoginCommand(c: Config, myemail: string, password: string): string {
    if c.loginmethod == "sso" then
      BtpLoginBase(c) + " --sso"
    else
      BtpLoginBase(c) + " --user '" + myemail + "' --password '" + password + "'"
  }

  function BtpLoginMessage(c: Config, myemail: string): string {
    if c.loginmethod == "sso" then
      "Logging-in to your global account with subdomain ID >" + c.globalaccount + "<"
    else
      "Logging-in to your global account with subdomain ID >" + c.globalaccount
        + "< for your user >" + myemail + "<"
  }

  /**
   * `login_btp` at time `now`: one login command, interactive for SSO
   * (after which the e-mail address is taken from the client configuration
   * when it is recorded there) and with user and password otherwise.
   */
  function LoginBtpStep(s: SessionState, c: Config, now: int, shell: Shell, clientConfig: ClientConfig): Step<()> {
    if c.loginmethod == "sso" then BtpSsoStep(s, c, now, shell, clientConfig)
    else BtpCredentialStep(s, c, now, shell)
  }

  function BtpSsoStep(s: SessionState, c: Config, now: int, shell: Shell, clientConfig: ClientConfig): Step<()> {
    var run := RunStep(s, c, BtpLoginCommand(c, s.myemail, c.mypassword), "INFO", Some(BtpLoginMessage(c, s.myemail)),
                       true, true, now, shell);
    if run.outcome.Exit? then Step(run.session, Exit(run.outcome.code))
    else Step(run.session.(myemail := MailIn(clientConfig).GetOr(run.session.myemail)), Return(()))
  }

  function BtpCredentialStep(s: SessionState, c: Config, now: int, shell: Shell): Step<()> {
    var s1 := s.(log := s.log + EscapeLog(c.mypassword));
    var run := RunStep(s1, c, BtpLoginCommand(c, s.myemail, c.mypassword), "INFO", Some(BtpLoginMessage(c, s.myemail)),
                       true, false, now, shell);
    Step(run.session, Done(run.outcome))
  }

  method LoginBtp(u: BtpUsecase, now: int, shell: Shell, clientConfig: ClientConfig) returns (outcome: Outcome<()>)
    modifies u`myemail, u`timeLastCliLogin, u`relogins, u`log, u`executed
    ensures Step(u.Session(), outcome) == LoginBtpStep(old(u.Session()), u.Settings(), now, shell, clientConfig)
  {
    if u.loginmethod == "sso" {
      outcome := LoginBtpWithSso(u, now, shell, clientConfig);
    } else {
      outcome := LoginBtpWithCredentials(u, now, shell);
    }
  }

  /** The interactive branch of `login_btp`. */
  method LoginBtpWithSso(u: BtpUsecase, now: int, shell: Shell, clientConfig: ClientConfig) returns (outcome: Outcome<()>)
    modifies u`myemail, u`timeLastCliLogin, u`relogins, u`log, u`executed
    ensures Step(u.Session(), outcome) == BtpSsoStep(old(u.Session()), u.Settings(), now, shell, clientConfig)
  {
    var c := u.Settings();
    var myemail := u.myemail;
    var run := RunShellCommandFlex(u, BtpLoginCommand(c, myemail, c.mypassword), "INFO", Some(BtpLoginMessage(c, myemail)),
                                   true, true, now, shell);
    if run.Exit? {
      return Exit(run.code);
    }
    ghost var after := u.Session();
    var _ := FetchEmailAddressFromBtpConfigFile(u, clientConfig);
    assert u.Session() == after.(myemail := MailIn(clientConfig).GetOr(after.myemail));
    return Return(());
  }

  /** The branch of `login_btp` with user and password. */
  method LoginBtpWithCredentials(u: BtpUsecase, now: int, shell: Shell) returns (outcome: Outcome<()>)
    modifies u`timeLastCliLogin, u`relogins, u`log, u`executed
    ensures Step(u.Session(), outcome) == BtpCredentialStep(old(u.Session()), u.Settings(), now, shell)
  {
    var c := u.Settings();
    var myemail := u.myemail;
    var password := EscapePassword(u, c.mypassword);
    assert u.Session() == old(u.Session()).(log := old(u.log) + EscapeLog(c.mypassword));
    var run := RunShellCommandFlex(u, BtpLoginCommand(c, myemail, password), "INFO", Some(BtpLoginMessage(c, myemail)),
                                   true, false, now, shell);
    return Done(run);
  }

  function CfSsoLoginCommand(c: Config): string {
    "cf login -a '" + c.accountMetadata.cfapiendpoint + "' -o '" + c.accountMetadata.org + "' --sso"
  }

  /** The three credential steps: set the API endpoint, authenticate, set the org. */
  function CfApiCommand(c: Config): string {
    "cf api " + c.accountMetadata.cfapiendpoint
  }

  function CfAuthCommand(myemail: string, password: string): string {
    "cf auth " + myemail + " " + password
  }

  function CfTargetCommand(c: Config): string {
    "cf target -o " + c.accountMetadata.org
  }

  function CfCredentialCommands(c: Config, myemail: string, password: string): seq<string> {
    [CfApiCommand(c), CfAuthCommand(myemail, password), CfTargetCommand(c)]
  }

  function CfApiMessage(c: Config): string {
    "Non-interactive login step 1: set CF API endpoint to >" + c.accountMetadata.cfapiendpoint + "<"
  }

  function CfAuthMessage(myemail: string): string {
    "Non-interactive login step 2: authenticate to CF with user >" + myemail + "<"
  }

  function CfTargetMessage(c: Config): string {
    "Non-interactive login step 3: set CF org to >" + c.accountMetadata.org + "<"
  }

  function CfCredentialMessages(c: Config, myemail: string): seq<string> {
    [CfApiMessage(c), CfAuthMessage(myemail), CfTargetMessage(c)]
  }

  /**
   * Runs the commands in order, each after logging its message, with output
   * captured and every failure fatal; stops at the first one that ends the
   * program.
   */
  function RunSteps(s: SessionState, c: Config, commands: seq<string>, messages: seq<string>,
                    now: int, shell: Shell): Step<()>
    requires |messages| == |commands|
    decreases |commands|
  {
    if commands == [] then
      Step(s, Return(()))
    else
      var run := RunStep(s, c, commands[0], "INFO", Some(messages[0]), true, false, now, shell);
      if run.outcome.Exit? then Step(run.session, Done(run.outcome))
      else RunSteps(run.session, c, commands[1..], messages[1..], now, shell)
  }

  /** One step of `RunSteps`, taken at position `i` of the commands. */
  lemma RunStepsUnfold(s: SessionState, c: Config, commands: seq<string>, messages: seq<string>, i: nat,
                       now: int, shell: Shell, r: Step<ProcessResult>)
    requires i < |commands| == |messages|
    requires r == RunStep(s, c, commands[i], "INFO", Some(messages[i]), true, false, now, shell)
    ensures RunSteps(s, c, commands[i..], messages[i..], now, shell)
      == if r.outcome.Exit? then Step(r.session, Done(r.outcome))
         else RunSteps(r.session, c, commands[i + 1..], messages[i + 1..], now, shell)
  {
    assert commands[i..][1..] == commands[i + 1..] && messages[i..][1..] == messages[i + 1..];
  }

  function CfSsoMessage(c: Config, myemail: string): string {
    "Logging-in to your CF environment in the org >" + c.accountMetadata.org + "< for your user >" + myemail + "<"
  }

  /**
   * `login_cf` at time `now`: nothing at all without a `cloudfoundry`
   * environment; otherwise one interactive login for SSO, or the three
   * credential steps in order, each ending the program if it fails.
   */
  function LoginCfStep(s: SessionState, c: Config, now: int, shell: Shell): Step<()> {
    if !HasCloudFoundry(c.definedEnvironments) then
      Step(s, Return(()))
    else if c.loginmethod == "sso" then
      var run := RunStep(s, c, CfSsoLoginCommand(c), "INFO", Some(CfSsoMessage(c, s.myemail)), true, true, now, shell);
      Step(run.session, Done(run.outcome))
    else
      var s0 := s.(log := s.log + EscapeLog(c.mypassword));
      RunSteps(s0, c, CfCredentialCommands(c, s.myemail, c.mypassword), CfCredentialMessages(c, s.myemail), now, shell)
  }

  method LoginCf(u: BtpUsecase, now: int, shell: Shell) returns (outcome: Outcome<()>)
    modifies u`timeLastCliLogin, u`relogins, u`log, u`executed
    ensures Step(u.Session(), outcome) == LoginCfStep(old(u.Session()), u.Settings(), now, shell)
  {
    ghost var s := u.Session();
    ghost var whole := LoginCfStep(s, u.Settings(), now, shell);
    var cfDefined := CheckIfCfEnvironmentIsDefined(u);
    if !cfDefined {
      assert whole == Step(s, Return(()));
      return Return(());
    }
    var org := u.accountMetadata.org;
    var myemail := u.myemail;
    var cfApiEndpoint := u.accountMetadata.cfapiendpoint;
    if u.loginmethod == "sso" {
      var message := "Logging-in to your CF environment in the org >" + org + "< for your user >" + myemail + "<";
      var command := "cf login -a '" + cfApiEndpoint + "' -o '" + org + "' --sso";
      assert command == CfSsoLoginCommand(u.Settings()) && message == CfSsoMessage(u.Settings(), myemail);
      assert whole == var r := RunStep(s, u.Settings(), command, "INFO", Some(message), true, true, now, shell);
        Step(r.session, Done(r.outcome));
      var run := RunShellCommandFlex(u, command, "INFO", Some(message), true, true, now, shell);
      return Done(run);
    }
    outcome := LoginCfWithCredentials(u, now, shell);
  }

  /**
   * Runs `commands` in order, each after logging its message, stopping at
   * the first one that ends the program.
   */
  method RunInOrder(u: BtpUsecase, commands: seq<string>, messages: seq<string>, now: int, shell: Shell)
    returns (outcome: Outcome<()>)
    requires |messages| == |commands|
    modifies u`timeLastCliLogin, u`relogins, u`log, u`executed
    ensures Step(u.Session(), outcome) == RunSteps(old(u.Session()), u.Settings(), commands, messages, now, shell)
  {
    ghost var spec := RunSteps(u.Session(), u.Settings(), commands, messages, now, shell);
    assert commands[0..] == commands && messages[0..] == messages;
    for i := 0 to |commands|
      invariant spec == RunSteps(u.Session(), u.Settings(), commands[i..], messages[i..], now, shell)
    {
      ghost var before := u.Session();
      var run := RunShellCommandFlex(u, commands[i], "INFO", Some(messages[i]), true, false, now, shell);
      RunStepsUnfold(before, u.Settings(), commands, messages, i, now, shell, Step(u.Session(), run));
      if run.Exit? {
        return Done(run);
      }
    }
    return Return(());
  }

  /**
   * The non-interactive branch of `login_cf`: escape the password, then run
   * the three steps in order.
   */
  method LoginCfWithCredentials(u: BtpUsecase, now: int, shell: Shell) returns (outcome: Outcome<()>)
    modifies u`timeLastCliLogin, u`relogins, u`log, u`executed
    ensures var s0 := old(u.Session()).(log := old(u.log) + EscapeLog(u.mypassword));
      Step(u.Session(), outcome)
        == RunSteps(s0, u.Settings(), CfCredentialCommands(u.Settings(), old(u.myemail), u.mypassword),
                    CfCredentialMessages(u.Settings(), old(u.myemail)), now, shell)
  {
    var c := u.Settings();
    var myemail := u.myemail;
    var password := EscapePassword(u, c.mypassword);
    assert u.Session() == old(u.Session()).(log := old(u.log) + EscapeLog(c.mypassword));
    outcome := RunInOrder(u, CfCredentialCommands(c, myemail, password), CfCredentialMessages(c, myemail), now, shell);
  }
}
