/** The console's entry page (`MainMenu`): a password gate in front of the
    menu. The expected password is the `login_password` of the first common
    setting; the browser's local storage keeps a `loggedIn` flag so that a
    session survives a reload; once logged in the page fetches the teams. */
module MainMenu {
  import opened Wrappers
  import opened Text
  import opened Records

  /** What the request for `/settings/` came back with. */
  datatype SettingsAnswer =
    | Unreachable                    // the request threw
    | NotOk                          // a response whose status is not 2xx
    | Listed(rows: seq<Settings>)     // the decoded list

  /** What the page shows. */
  datatype Screen = Spinner | LoginForm | Menu

  /** The message shown under the form after a wrong password. */
  datatype LoginError = NoError | WrongPassword

  /** `localStorage.getItem("loggedIn") === "true"`. */
  predicate FlagSaysLoggedIn(flag: Option<string>) {
    flag == Some("true")
  }

  /** `data[0].login_password || ""`: a null, missing or empty password is
      the empty string. */
  function FirstPassword(rows: seq<Settings>): (p: string)
    requires rows != []
    ensures rows[0].login_password.Some? ==> p == rows[0].login_password.value
    ensures rows[0].login_password.None? ==> p == ""
  {
    match rows[0].login_password
    case None => ""
    case Some(s) => if s == "" then "" else s
  }

  /** The comparison `handleLogin` makes: both sides trimmed. */
  predicate PasswordsMatch(typed: string, expected: string) {
    Trim(typed) == Trim(expected)
  }

  /** Trimming the typed password first changes nothing: white space around
      it never decides the outcome. */
  lemma TypedSpaceIgnored(typed: string, expected: string)
    ensures PasswordsMatch(Trim(typed), expected) <==> PasswordsMatch(typed, expected)
  {
    TrimIdempotent(typed);
  }

  /** Nor does white space around the stored password. */
  lemma ExpectedSpaceIgnored(typed: string, expected: string)
    ensures PasswordsMatch(typed, Trim(expected)) <==> PasswordsMatch(typed, expected)
  {
    TrimIdempotent(expected);
  }

  /** While no password is set (or before it has been fetched) exactly the
      blank inputs are accepted. */
  lemma EmptyPasswordAcceptsBlank(typed: string)
    ensures PasswordsMatch(typed, "") <==> Blank(typed)
  {
    assert Trim("") == "";
  }

  class Page {
    /** The `loggedIn` entry of local storage (`None`: no entry). */
    var storedFlag: Option<string>
    var loggedIn: bool
    var teams: seq<Team>
    var loading: bool
    var password: string
    var loginPassword: string
    var fetchingPassword: bool
    var loginError: LoginError

    /** What `render` returns for the current state. */
    function View(): (v: Screen)
      reads this
      ensures v == Spinner <==> (loading || fetchingPassword)
      ensures v == Menu <==> (!loading && !fetchingPassword && loggedIn)
    {
      if loading || fetchingPassword then Spinner
      else if !loggedIn then LoginForm
      else Menu
    }

    /** Mounting the page with `flag` in local storage. */
    constructor (flag: Option<string>)
      ensures storedFlag == flag
      ensures loggedIn == FlagSaysLoggedIn(flag)
      ensures teams == [] && loading && password == "" && loginPassword == ""
      ensures fetchingPassword && loginError == NoError
      ensures View() == Spinner
    {
      storedFlag := flag;
      loggedIn := flag == Some("true");
      teams := [];
      loading := true;
      password := "";
      loginPassword := "";
      fetchingPassword := true;
      loginError := NoError;
    }

    /** The answer to the mount-time settings request: the spinner for the
        password ends whatever the answer; the password is taken only from a
        non-empty list. */
    method ReceiveSettings(answer: SettingsAnswer)
      modifies this`loginPassword, this`fetchingPassword
      ensures !fetchingPassword
      ensures answer.Listed? && answer.rows != [] ==> loginPassword == FirstPassword(answer.rows)
      ensures !(answer.Listed? && answer.rows != []) ==> loginPassword == old(loginPassword)
    {
      if answer.Listed? && answer.rows != [] {
        loginPassword := FirstPassword(answer.rows);
      }
      fetchingPassword := false;
    }

    /** The effect run on mount and whenever `loggedIn` changes: the teams are
        requested only when logged in (`data` is the answer, `None` when it
        failed), and the page stops loading either way. */
    method LoggedInChanged(data: Option<seq<Team>>)
      modifies this`teams, this`loading
      ensures !loading
      ensures teams == if loggedIn && data.Some? then data.value else old(teams)
    {
      if loggedIn && data.Some? {
        teams := data.value;
      }
      loading := false;
    }

    /** Typing into the password field. */
    method SetPassword(text: string)
      modifies this`password
      ensures password == text
    {
      password := text;
    }

    /** `handleLogin`: a match stores the flag and logs in; a mismatch leaves
        the login state alone and shows the error. */
    method HandleLogin()
      modifies this`storedFlag, this`loggedIn, this`loginError
      ensures PasswordsMatch(password, loginPassword) ==>
        storedFlag == Some("true") && loggedIn && loginError == NoError
      ensures !PasswordsMatch(password, loginPassword) ==>
        storedFlag == old(storedFlag) && loggedIn == old(loggedIn) && loginError == WrongPassword
    {
      loginError := NoError;
      if Trim(password) == Trim(loginPassword) {
        storedFlag := Some("true");
        loggedIn := true;
      } else {
        loginError := WrongPassword;
      }
    }

    /** Submitting the form: the field is `required`, so the browser submits
        nothing while it is empty. */
    method Submit()
      modifies this`storedFlag, this`loggedIn, this`loginError
      ensures password == "" ==>
        storedFlag == old(storedFlag) && loggedIn == old(loggedIn) && loginError == old(loginError)
      ensures password != "" && PasswordsMatch(password, loginPassword) ==>
        storedFlag == Some("true") && loggedIn && loginError == NoError
      ensures password != "" && !PasswordsMatch(password, loginPassword) ==>
        storedFlag == old(storedFlag) && loggedIn == old(loggedIn) && loginError == WrongPassword
    {
      if password != "" {
        HandleLogin();
      }
    }

    /** `handleLogout`: the stored flag is removed and the page logs out. */
    method HandleLogout()
      modifies this`storedFlag, this`loggedIn
      ensures storedFlag == None && !loggedIn
    {
      storedFlag := None;
      loggedIn := false;
    }
  }

  /** A successful login survives a reload of the page, and a logout does
      not: remounting from the stored flag restores the state it recorded. */
  method ReloadAfterLogin(p: Page) returns (q: Page)
    requires PasswordsMatch(p.password, p.loginPassword)
    modifies p
    ensures p.loggedIn && q.loggedIn && fresh(q)
  {
    p.HandleLogin();
    q := new Page(p.storedFlag);
  }

  method ReloadAfterLogout(p: Page) returns (q: Page)
    modifies p
    ensures !p.loggedIn && !q.loggedIn && fresh(q)
  {
    p.HandleLogout();
    q := new Page(p.storedFlag);
  }

  /** Once the settings are in and the teams effect has run, a logged-out
      page shows the login form and a logged-in one the menu. */
  method SettleAfterMount(flag: Option<string>, answer: SettingsAnswer, data: Option<seq<Team>>)
    returns (p: Page)
    ensures FlagSaysLoggedIn(flag) ==> p.View() == Menu
    ensures !FlagSaysLoggedIn(flag) ==> p.View() == LoginForm && p.teams == []
  {
    p := new Page(flag);
    p.ReceiveSettings(answer);
    p.LoggedInChanged(data);
  }
}
