/**
 * The use case object that every operation of the command runner reads and
 * updates in place, with the two small helpers that work on it directly:
 * the "is a Cloud Foundry environment defined" scan and the e-mail update
 * after an SSO login.
 */
module Usecase {
  import opened Options

  datatype Environment = Environment(name: string)

  /** The two account metadata entries the logins read. */
  datatype AccountMetadata = AccountMetadata(org: string, cfapiendpoint: string)

  /** One call to the logger, tagged with its severity. */
  datatype LogEntry =
    | Info(text: string)
    | Check(text: string)
    | Warning(text: string)
    | Command(text: string)
    | Error(text: string)
    | Header(text: string)
    | Success(text: string)

  /** The two login routines a re-login runs. */
  datatype LoginRoutine = LoginBtp | LoginCf

  /** The parts of the use case the command runner only reads. */
  datatype Config = Config(
    mypassword: string,
    loginmethod: string,
    globalaccount: string,
    btpcliapihostregion: string,
    accountMetadata: AccountMetadata,
    definedEnvironments: seq<Environment>,
    logcommands: bool)

  /**
   * The parts it changes, and what it has done so far: the log, the
   * commands handed to the shell, and the re-logins the gate started.
   */
  datatype SessionState = SessionState(
    myemail: string,
    timeLastCliLogin: Option<int>,
    log: seq<LogEntry>,
    executed: seq<string>,
    relogins: seq<LoginRoutine>)

  /** Some defined environment is named `cloudfoundry`. */
  predicate HasCloudFoundry(environments: seq<Environment>) {
    exists i :: 0 <= i < |environments| && environments[i].name == "cloudfoundry"
  }

  /** The parsed BTP CLI client configuration file: sections of string fields. */
  type ClientConfig = map<string, map<string, string>>

  /** The user's e-mail address in the client configuration, if recorded there. */
  function MailIn(file: ClientConfig): Option<string> {
    if "Authentication" in file && "Mail" in file["Authentication"] then
      Some(file["Authentication"]["Mail"])
    else
      None
  }

  class BtpUsecase {
    var myemail: string
    var mypassword: string
    var loginmethod: string
    var globalaccount: string
    var btpcliapihostregion: string
    var accountMetadata: AccountMetadata
    var definedEnvironments: seq<Environment>
    var logcommands: bool
    var timeLastCliLogin: Option<int>
    var log: seq<LogEntry>
    var executed: seq<string>
    var relogins: seq<LoginRoutine>

    /** A use case that has not logged in, logged, or run anything yet. */
    constructor (settings: Config, myemail: string)
      ensures Settings() == settings
      ensures Session() == SessionState(myemail, None, [], [], [])
    {
      this.myemail := myemail;
      mypassword := settings.mypassword;
      loginmethod := settings.loginmethod;
      globalaccount := settings.globalaccount;
      btpcliapihostregion := settings.btpcliapihostregion;
      accountMetadata := settings.accountMetadata;
      definedEnvironments := settings.definedEnvironments;
      logcommands := settings.logcommands;
      timeLastCliLogin := None;
      log, executed, relogins := [], [], [];
    }

    function Settings(): Config
      reads this`mypassword, this`loginmethod, this`globalaccount, this`btpcliapihostregion,
        this`accountMetadata, this`definedEnvironments, this`logcommands
    {
      Config(mypassword, loginmethod, globalaccount, btpcliapihostregion,
        accountMetadata, definedEnvironments, logcommands)
    }

    function Session(): SessionState
      reads this`myemail, this`timeLastCliLogin, this`log, this`executed, this`relogins
    {
      SessionState(myemail, timeLastCliLogin, log, executed, relogins)
    }
  }

  /** Scans the defined environments and stops at the first one named `cloudfoundry`. */
  method CheckIfCfEnvironmentIsDefined(u: BtpUsecase) returns (defined: bool)
    ensures defined == HasCloudFoundry(u.definedEnvironments)
  {
    var environments := u.definedEnvironments;
    for i := 0 to |environments|
      invariant forall j :: 0 <= j < i ==> environments[j].name != "cloudfoundry"
    {
      if environments[i].name == "cloudfoundry" {
        return true;
      }
    }
    return false;
  }

  /**
   * After an SSO login: takes the e-mail address from the client
   * configuration when it is there, and otherwise leaves it as it was.
   */
  method FetchEmailAddressFromBtpConfigFile(u: BtpUsecase, file: ClientConfig) returns (mail: Option<string>)
    modifies u`myemail
    ensures mail == MailIn(file)
    ensures u.myemail == mail.GetOr(old(u.myemail))
    ensures u.Session() == old(u.Session()).(myemail := mail.GetOr(old(u.myemail)))
  {
    if "Authentication" in file && "Mail" in file["Authentication"] {
      u.myemail := file["Authentication"]["Mail"];
      return Some(u.myemail);
    }
    return None;
  }
}
