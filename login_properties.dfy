/**
 * What the two login routines promise: the commands they send, the order
 * and the stopping point of the non-interactive CF steps, the lines the
 * log keeps of their passwords, and that the gate never starts a second
 * re-login from inside a re-login.
 */
module LoginProperties {
  import opened Options
  import opened Strings
  import opened Usecase
  import opened Completion
  import opened Redaction
  import opened Gate
  import opened Runner
  import opened Login

  /**
   * Every BTP login command starts with the fixed URL prefix, and so with
   * `btp login`: the gate counts it as a login.
   */
  lemma BtpLoginIsLogin(c: Config, myemail: string, password: string)
    ensures StartsWith(BtpLoginCommand(c, myemail, password), BtpLoginPrefix)
    ensures IsLoginCommand(BtpLoginCommand(c, myemail, password))
  {
    var command := BtpLoginCommand(c, myemail, password);
    assert command == BtpLoginPrefix + (command[|BtpLoginPrefix|..]);
    assert command == BtpLogin + (command[|BtpLogin|..]);
  }

  /**
   * The SSO login command is the shared part followed by ` --sso`; the
   * other one is the shared part followed by the user and the quoted
   * password, which is the user part, the `password ` marker and the
   * quoted password.
   */
  lemma BtpLoginCommandShape(c: Config, myemail: string, password: string)
    ensures var command := BtpLoginCommand(c, myemail, password);
      && (c.loginmethod == "sso" ==> command == BtpLoginBase(c) + " --sso")
      && (c.loginmethod != "sso" ==>
            && command == BtpLoginBase(c) + " --user '" + myemail + "' --password '" + password + "'"
            && command == BtpUserPart(c, myemail) + "password " + ("'" + password + "'"))
  {
    if c.loginmethod != "sso" {
      assert "' --password '" == "' --" + "password " + "'";
    }
  }

  /** The interactive CF login starts with `cf login`. */
  lemma CfSsoLoginIsLogin(c: Config)
    ensures IsLoginCommand(CfSsoLoginCommand(c))
  {
    var command := CfSsoLoginCommand(c);
    assert command[..8] == "cf login";
  }

  /**
   * The three non-interactive CF steps all start with `cf ` and none is a
   * `cf login`, so each of them passes through the re-login check.
   */
  lemma CfCredentialCommandsAreGated(c: Config, myemail: string, password: string)
    ensures var commands := CfCredentialCommands(c, myemail, password);
      forall k :: 0 <= k < |commands| ==> IsGatedCommand(commands[k]) && !IsLoginCommand(commands[k])
  {
    var commands := CfCredentialCommands(c, myemail, password);
    forall k | 0 <= k < |commands|
      ensures IsGatedCommand(commands[k]) && !IsLoginCommand(commands[k])
    {
      var command := commands[k];
      assert command[..3] == "cf ";
      assert command[3] != 'l';
      assert Take(command, 8) != "cf login" by {
        assert Take(command, 8)[3] == command[3];
      }
      assert Take(command, 9) != "btp login" by {
        assert Take(command, 9)[0] == command[0] == 'c';
      }
    }
  }

  /**
   * With command logging on, the BTP login with user and password is
   * logged only up to the opening quote of the password, followed by the
   * mask, provided `password ` does not already occur before the flag.
   */
  lemma BtpPasswordMasked(c: Config, myemail: string, password: string)
    requires c.loginmethod != "sso"
    requires !Contains(BtpUserPart(c, myemail), "password ")
    ensures var lines := RedactedLines(BtpLoginCommand(c, myemail, password), true);
      |lines| >= 1 && lines[0] == BtpUserPart(c, myemail) + "password '" + Mask
  {
    BtpLoginCommandShape(c, myemail, password);
    BtpUserPartEnd(c, myemail);
    QuotedPasswordMasked(BtpUserPart(c, myemail), password);
  }

  /** A quoted password after the `password ` marker is logged as its opening quote and the mask. */
  lemma QuotedPasswordMasked(user: string, password: string)
    requires |user| > 0 && user[|user| - 1] !in PasswordMarkers[0]
    requires !Contains(user, "password ")
    ensures var lines := RedactedLines(user + "password " + ("'" + password + "'"), true);
      |lines| >= 1 && lines[0] == user + "password '" + Mask
  {
    var value := "'" + password + "'";
    assert PasswordMarkers[0] == "password ";
    PasswordFlagMasked(user, value);
    assert Take(value, 1) == "'";
    assert user + "password " + "'" == user + "password '";
  }

  /** The user part ends with a `-`, which is not part of the `password ` marker. */
  lemma BtpUserPartEnd(c: Config, myemail: string)
    ensures var user := BtpUserPart(c, myemail);
      |user| > 0 && user[|user| - 1] == '-' && user[|user| - 1] !in PasswordMarkers[0]
  {
  }

  /**
   * The CF authentication step is logged as the fixed masked line alone
   * when its e-mail address and password hold none of the markers.
   */
  lemma CfAuthCommandMasked(myemail: string, password: string)
    requires forall k :: 0 <= k < |PasswordMarkers| ==> !Contains(CfAuthCommand(myemail, password), PasswordMarkers[k])
    ensures RedactedLines(CfAuthCommand(myemail, password), true) == [CfAuthLine]
  {
    var command := CfAuthCommand(myemail, password);
    assert OccursAt(command, CfAuth, 0);
    CfAuthLogged(command);
  }

  /** The steps never change the e-mail address. */
  lemma {:induction false} RunStepsKeepEmail(s: SessionState, c: Config, commands: seq<string>, messages: seq<string>,
                                            now: int, shell: Shell)
    requires |messages| == |commands|
    ensures RunSteps(s, c, commands, messages, now, shell).session.myemail == s.myemail
    decreases |commands|
  {
    if commands != [] {
      var run := RunStep(s, c, commands[0], "INFO", Some(messages[0]), true, false, now, shell);
      if run.outcome.Return? {
        RunStepsKeepEmail(run.session, c, commands[1..], messages[1..], now, shell);
      }
    }
  }

  /** The steps return exactly when every one of them succeeds. */
  lemma {:induction false} RunStepsReturnIff(s: SessionState, c: Config, commands: seq<string>, messages: seq<string>,
                                            now: int, shell: Shell)
    requires |messages| == |commands|
    ensures RunSteps(s, c, commands, messages, now, shell).outcome.Return? <==> AllSucceed(commands, shell)
    decreases |commands|
  {
    if commands != [] {
      var run := RunStep(s, c, commands[0], "INFO", Some(messages[0]), true, false, now, shell);
      assert commands == [commands[0]] + commands[1..];
      AllSucceedPrepend(commands[0], commands[1..], shell);
      if run.outcome.Return? {
        RunStepsReturnIff(run.session, c, commands[1..], messages[1..], now, shell);
      }
    }
  }

  /** When the steps return, all of them were run, in order. */
  lemma {:induction false} RunStepsReturnExecuted(s: SessionState, c: Config, commands: seq<string>,
                                                 messages: seq<string>, now: int, shell: Shell)
    requires |messages| == |commands|
    ensures var r := RunSteps(s, c, commands, messages, now, shell);
      r.outcome.Return? ==> r.session.executed == s.executed + commands
    decreases |commands|
  {
    if commands != [] {
      var run := RunStep(s, c, commands[0], "INFO", Some(messages[0]), true, false, now, shell);
      if run.outcome.Return? {
        RunStepsReturnExecuted(run.session, c, commands[1..], messages[1..], now, shell);
        assert commands == [commands[0]] + commands[1..];
      }
    }
  }

  /**
   * When the steps end the program, they stopped at some step: the ones
   * before it succeeded and exactly the ones up to it were run.
   */
  lemma {:induction false} RunStepsStop(s: SessionState, c: Config, commands: seq<string>, messages: seq<string>,
                                       now: int, shell: Shell)
    requires |messages| == |commands|
    ensures var r := RunSteps(s, c, commands, messages, now, shell);
      r.outcome.Exit? ==> exists k :: StoppedAt(s, r, commands, k, shell)
    decreases |commands|
  {
    var r := RunSteps(s, c, commands, messages, now, shell);
    if commands != [] && r.outcome.Exit? {
      var run := RunStep(s, c, commands[0], "INFO", Some(messages[0]), true, false, now, shell);
      if run.outcome.Exit? {
        assert commands[..1] == [commands[0]];
        assert StoppedAt(s, r, commands, 0, shell);
      } else {
        var tail := commands[1..];
        RunStepsStop(run.session, c, tail, messages[1..], now, shell);
        assert r == RunSteps(run.session, c, tail, messages[1..], now, shell);
        var k: nat :| StoppedAt(run.session, r, tail, k, shell);
        assert commands == [commands[0]] + tail;
        StoppedAtPrepend(s, run.session, r, commands[0], tail, k, shell);
      }
    }
  }

  /**
   * Once the login time is `now`, steps run at `now` never start a
   * re-login and leave the login time at `now`.
   */
  lemma {:induction false} RunStepsAtLoginTime(s: SessionState, c: Config, commands: seq<string>,
                                              messages: seq<string>, now: int, shell: Shell)
    requires |messages| == |commands|
    requires s.timeLastCliLogin == Some(now)
    ensures var r := RunSteps(s, c, commands, messages, now, shell);
      r.session.relogins == s.relogins && r.session.timeLastCliLogin == Some(now)
    decreases |commands|
  {
    if commands != [] {
      var run := RunStep(s, c, commands[0], "INFO", Some(messages[0]), true, false, now, shell);
      RunPassesGate(s, c, commands[0], "INFO", Some(messages[0]), true, false, now, shell);
      if run.outcome.Return? {
        RunStepsAtLoginTime(run.session, c, commands[1..], messages[1..], now, shell);
      }
    }
  }

  /**
   * `login_btp` sends exactly one command, the BTP login, ends the program
   * exactly when it fails, sets the login time to `now` without a
   * re-login, and changes the e-mail address only after a successful SSO
   * login, to the one in the client configuration if it is recorded there.
   */
  lemma LoginBtpRunsOneLogin(s: SessionState, c: Config, now: int, shell: Shell, clientConfig: ClientConfig)
    ensures var r := LoginBtpStep(s, c, now, shell, clientConfig);
      var command := BtpLoginCommand(c, s.myemail, c.mypassword);
      && r.session.executed == s.executed + [command]
      && (r.outcome.Exit? <==> shell(command).returnCode != 0)
      && (r.outcome.Exit? ==> r.outcome.code == shell(command).returnCode)
      && r.session.timeLastCliLogin == Some(now)
      && r.session.relogins == s.relogins
      && r.session.myemail
         == if c.loginmethod == "sso" && r.outcome.Return? then MailIn(clientConfig).GetOr(s.myemail) else s.myemail
  {
    var command := BtpLoginCommand(c, s.myemail, c.mypassword);
    var message := BtpLoginMessage(c, s.myemail);
    BtpLoginIsLogin(c, s.myemail, c.mypassword);
    if c.loginmethod == "sso" {
      RunPassesGate(s, c, command, "INFO", Some(message), true, true, now, shell);
    } else {
      var s1 := s.(log := s.log + EscapeLog(c.mypassword));
      RunPassesGate(s1, c, command, "INFO", Some(message), true, false, now, shell);
    }
  }

  /**
   * `login_cf` does nothing without a `cloudfoundry` environment; with
   * SSO it sends the one interactive login; otherwise it sends the three
   * steps in order, all of them when all succeed, and up to the first
   * failure otherwise, whose return code ends the program.
   */
  lemma LoginCfCommands(s: SessionState, c: Config, now: int, shell: Shell)
    ensures var r := LoginCfStep(s, c, now, shell);
      && (!HasCloudFoundry(c.definedEnvironments) ==> r == Step(s, Return(())))
      && (HasCloudFoundry(c.definedEnvironments) && c.loginmethod == "sso" ==>
            && r.session.executed == s.executed + [CfSsoLoginCommand(c)]
            && (r.outcome.Exit? <==> shell(CfSsoLoginCommand(c)).returnCode != 0))
      && (HasCloudFoundry(c.definedEnvironments) && c.loginmethod != "sso" ==>
            var commands := CfCredentialCommands(c, s.myemail, c.mypassword);
            && (r.outcome.Return? <==> AllSucceed(commands, shell))
            && (r.outcome.Return? ==> r.session.executed == s.executed + commands)
            && (r.outcome.Exit? ==> exists k :: StoppedAt(s, r, commands, k, shell)))
  {
    if HasCloudFoundry(c.definedEnvironments) && c.loginmethod != "sso" {
      var s0 := s.(log := s.log + EscapeLog(c.mypassword));
      var commands := CfCredentialCommands(c, s.myemail, c.mypassword);
      var r := RunSteps(s0, c, commands, CfCredentialMessages(c, s.myemail), now, shell);
      RunStepsReturnIff(s0, c, commands, CfCredentialMessages(c, s.myemail), now, shell);
      RunStepsReturnExecuted(s0, c, commands, CfCredentialMessages(c, s.myemail), now, shell);
      RunStepsStop(s0, c, commands, CfCredentialMessages(c, s.myemail), now, shell);
      if r.outcome.Exit? {
        var k :| StoppedAt(s0, r, commands, k, shell);
        assert StoppedAt(s, r, commands, k, shell);
      }
    }
  }

  /** Run at the time of the last login, `login_cf` starts no re-login and keeps that time. */
  lemma LoginCfAtLoginTime(s: SessionState, c: Config, now: int, shell: Shell)
    requires s.timeLastCliLogin == Some(now)
    ensures var r := LoginCfStep(s, c, now, shell);
      r.session.relogins == s.relogins && r.session.timeLastCliLogin == Some(now)
  {
    if HasCloudFoundry(c.definedEnvironments) {
      if c.loginmethod == "sso" {
        var command := CfSsoLoginCommand(c);
        CfSsoLoginIsLogin(c);
        RunPassesGate(s, c, command, "INFO", Some(CfSsoMessage(c, s.myemail)), true, true, now, shell);
      } else {
        var s0 := s.(log := s.log + EscapeLog(c.mypassword));
        RunStepsAtLoginTime(s0, c, CfCredentialCommands(c, s.myemail, c.mypassword),
          CfCredentialMessages(c, s.myemail), now, shell);
      }
    }
  }

  /**
   * A re-login never nests: the BTP login sets the login time to the
   * current time, so the CF login that follows it at the same time starts
   * no second re-login, and the pair leaves the login time at `now`.
   */
  lemma ReLoginDoesNotNest(s: SessionState, c: Config, now: int, shell: Shell, clientConfig: ClientConfig)
    ensures var b := LoginBtpStep(s, c, now, shell, clientConfig);
      var r := LoginCfStep(b.session, c, now, shell);
      r.session.relogins == s.relogins && r.session.timeLastCliLogin == Some(now)
  {
    var b := LoginBtpStep(s, c, now, shell, clientConfig);
    LoginBtpRunsOneLogin(s, c, now, shell, clientConfig);
    LoginCfAtLoginTime(b.session, c, now, shell);
  }
}
