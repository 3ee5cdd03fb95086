/**
 * The re-login gate run before every command: login commands reset the
 * time of the last login; `btp ` and `cf ` commands start a re-login when
 * the last login is more than 45 minutes old. Time is an integer number of
 * seconds supplied by the caller; the two login routines a re-login runs
 * are recorded, in order, in the session's `relogins`.
 */
module Gate {
  import opened Options
  import opened Strings
  import opened Usecase

  /** Seconds after which a `btp ` or `cf ` command triggers a re-login. */
  const ElapsedTimeForReLogin: int := 45 * 60

  /** Starts with `btp login` or `cf login`, compared as the source does, on a slice. */
  predicate IsLoginCommand(command: string) {
    Take(command, 9) == "btp login" || Take(command, 8) == "cf login"
  }

  /** A `btp ` or `cf ` command that is not itself a login. */
  predicate IsGatedCommand(command: string) {
    || (Take(command, 4) == "btp " && Take(command, 9) != "btp login")
    || (Take(command, 3) == "cf " && Take(command, 8) != "cf login")
  }

  /** No command starts with both `btp ` and `cf `. */
  lemma BtpAndCfExclusive(command: string)
    ensures !(Take(command, 4) == "btp " && Take(command, 3) == "cf ")
  {
    if Take(command, 4) == "btp " {
      assert command[0] == 'b';
    }
  }

  /** A re-login runs the BTP login, then the CF login if a CF environment exists. */
  function ReLoginSequence(environments: seq<Environment>): seq<LoginRoutine> {
    [LoginBtp] + if HasCloudFoundry(environments) then [LoginCf] else []
  }

  function ReLogin(s: SessionState, environments: seq<Environment>, now: int): SessionState {
    s.(relogins := s.relogins + ReLoginSequence(environments), timeLastCliLogin := Some(now))
  }

  /**
   * The gate's effect on the session. A login command sets the time of the
   * last login to now and nothing else. Any other command first sets a
   * missing time to now; then a re-login sequence runs exactly when the
   * command is a gated one and more than 45 minutes (strictly) have passed,
   * and afterwards the time of the last login is now; without a re-login
   * the time stays as it was. At most one sequence runs, and nothing but
   * the time and the re-logins changes.
   */
  function GateStep(s: SessionState, environments: seq<Environment>, command: string, now: int): (r: SessionState)
    ensures r.myemail == s.myemail && r.log == s.log && r.executed == s.executed
    ensures IsLoginCommand(command) ==> r.timeLastCliLogin == Some(now) && r.relogins == s.relogins
    ensures !IsLoginCommand(command) ==>
      var last := s.timeLastCliLogin.GetOr(now);
      if IsGatedCommand(command) && now - last > ElapsedTimeForReLogin then
        r.relogins == s.relogins + ReLoginSequence(environments) && r.timeLastCliLogin == Some(now)
      else
        r.relogins == s.relogins && r.timeLastCliLogin == Some(last)
  {
    if Take(command, 9) == "btp login" || Take(command, 8) == "cf login" then
      s.(timeLastCliLogin := Some(now))
    else
      var s1 := if s.timeLastCliLogin.None? then s.(timeLastCliLogin := Some(now)) else s;
      var reLogin := now - s1.timeLastCliLogin.value > ElapsedTimeForReLogin;
      BtpAndCfExclusive(command);
      var s2 := if Take(command, 4) == "btp " && Take(command, 9) != "btp login" && reLogin
        then ReLogin(s1, environments, now) else s1;
      if Take(command, 3) == "cf " && Take(command, 8) != "cf login" && reLogin
      then ReLogin(s2, environments, now) else s2
  }

  /**
   * `checkIfReLoginNecessary`: reads the clock once, handles login commands
   * first, initialises a missing time, then checks the `btp ` and the `cf `
   * case one after the other.
   */
  method CheckIfReLoginNecessary(u: BtpUsecase, command: string, now: int)
    modifies u`timeLastCliLogin, u`relogins
    ensures u.Session() == GateStep(old(u.Session()), u.definedEnvironments, command, now)
  {
    var currentTime := now;
    if Take(command, 9) == "btp login" {
      u.timeLastCliLogin := Some(currentTime);
      return;
    }
    if Take(command, 8) == "cf login" {
      u.timeLastCliLogin := Some(currentTime);
      return;
    }
    if u.timeLastCliLogin.None? {
      u.timeLastCliLogin := Some(currentTime);
    }
    var elapsedTime := currentTime - u.timeLastCliLogin.value;
    var reLogin := elapsedTime > ElapsedTimeForReLogin;
    if Take(command, 4) == "btp " && Take(command, 9) != "btp login" && reLogin {
      u.relogins := u.relogins + [LoginBtp];
      var cfDefined := CheckIfCfEnvironmentIsDefined(u);
      if cfDefined {
        u.relogins := u.relogins + [LoginCf];
      }
      u.timeLastCliLogin := Some(currentTime);
    }
    if Take(command, 3) == "cf " && Take(command, 8) != "cf login" && reLogin {
      u.relogins := u.relogins + [LoginBtp];
      var cfDefined := CheckIfCfEnvironmentIsDefined(u);
      if cfDefined {
        u.relogins := u.relogins + [LoginCf];
      }
      u.timeLastCliLogin := Some(currentTime);
    }
  }

  /** Exactly 45 minutes since the last login is not enough for a re-login. */
  lemma ExactThresholdDoesNotTrigger(s: SessionState, environments: seq<Environment>, command: string, now: int)
    requires s.timeLastCliLogin == Some(now - 2700)
    ensures GateStep(s, environments, command, now).relogins == s.relogins
  {
  }

  /** One second more is, for every gated command. */
  lemma OneSecondLateTriggers(s: SessionState, environments: seq<Environment>, command: string, now: int)
    requires s.timeLastCliLogin == Some(now - 2701)
    requires IsGatedCommand(command)
    ensures GateStep(s, environments, command, now).relogins == s.relogins + ReLoginSequence(environments)
  {
    assert !IsLoginCommand(command) by {
      if Take(command, 4) == "btp " {
        assert Take(command, 8)[0] == command[0] == Take(command, 4)[0] == 'b';
      } else {
        assert Take(command, 9)[0] == command[0] == Take(command, 3)[0] == 'c';
      }
    }
  }

  /**
   * Once the gate has let a login or a gated command through at time `now`,
   * no command run at the same time triggers a re-login: the recorded time
   * is then at most 45 minutes old. In particular, after the BTP login of a
   * re-login sequence, the CF login's commands cannot start another.
   */
  lemma NoSecondReLoginAtSameTime(s: SessionState, environments: seq<Environment>, first: string, next: string, now: int)
    requires IsLoginCommand(first) || IsGatedCommand(first)
    ensures var s1 := GateStep(s, environments, first, now);
      GateStep(s1, environments, next, now).relogins == s1.relogins
  {
  }

  /** Commands that start with neither `btp ` nor `cf ` never trigger a re-login. */
  lemma OtherCommandsNeverReLogin(s: SessionState, environments: seq<Environment>, command: string, now: int)
    requires !StartsWith(command, "btp ") && !StartsWith(command, "cf ")
    ensures GateStep(s, environments, command, now).relogins == s.relogins
  {
    TakeComparesPrefix(command, "btp ");
    TakeComparesPrefix(command, "cf ");
  }
}
