// The first screen of the client: the choice between Steam, e-mail and
// linked accounts, the registration and login forms with their ordered
// checks, the requests they send through an AuthNetworkManager, and the
// one-shot hand-off of the token to the home screen.
module AuthChoice {
  import opened Common
  import opened Json
  import opened AuthNetwork

  datatype AuthMethod = NoMethod | SteamMethod | EmailMethod | LinkedMethod

  /** What RenderUI draws. */
  datatype Screen = LoadingScreen | EmailFormScreen | EmailLoginScreen | SteamFormScreen | LinkedFormScreen | WelcomeScreen

  const UsernameTooShort: string := "Username must be at least 3 characters long"
  const InvalidEmail: string := "Please enter a valid email address"
  const PasswordTooShort: string := "Password must be at least 6 characters long"
  const PasswordMismatch: string := "Passwords do not match"
  const PasswordMissing: string := "Please enter your password"
  const EmailInUse: string := "Email is already in use. Please login or use a different email."
  const LinkedEmailInUse: string := "Email is already in use. Please use a different email."
  const NetworkErrorPrefix: string := "Network error: "
  const DevLoginUnreadable: string := "Failed to parse development authentication response"
  const DevLoginFailedPrefix: string := "Development authentication failed: "
  const DevLoginStatus: string := "Authenticating for development..."
  const SteamStatus: string := "Authenticating with Steam..."
  const CheckingEmailStatus: string := "Checking email..."
  const CreatingAccountStatus: string := "Creating account..."
  const CreatingLinkedStatus: string := "Creating linked account..."
  const LoggingInStatus: string := "Logging in..."
  const SuccessStatus: string := "Success! Logging in..."

  // ---------------------------------------------------------------------
  // Form checks
  // ---------------------------------------------------------------------

  /** The number of bytes a character takes in UTF-8, the encoding the text fields hold. */
  function Utf8Width(c: char): (n: nat)
    ensures 1 <= n <= 4
    ensures n == 1 <==> c as int < 0x80
  {
    if c as int < 0x80 then 1
    else if c as int < 0x800 then 2
    else if c as int < 0x10000 then 3
    else 4
  }

  /** std::string::length() of a field: its length in UTF-8 bytes, not in characters. */
  function Utf8Length(s: string): (n: nat)
    ensures |s| <= n <= 4 * |s|
    ensures n == |s| <==> forall i :: 0 <= i < |s| ==> s[i] as int < 0x80
  {
    if s == [] then 0
    else
      var init := s[..|s| - 1];
      assert forall i :: 0 <= i < |init| ==> init[i] == s[i];
      Utf8Length(init) + Utf8Width(s[|s| - 1])
  }

  /**
   * A registration form the client lets through: a user name of at least
   * three bytes, an address with '@', a password of at least six bytes that
   * the confirmation repeats.
   */
  predicate FormValid(username: string, email: string, password: string, confirm: string)
  {
    Utf8Length(username) >= 3 && '@' in email && Utf8Length(password) >= 6 && password == confirm
  }

  /** The length checks count bytes: a two-letter name of accented letters passes, a two-letter plain one does not. */
  lemma NameLengthCountsBytes()
    ensures FormValid(['\U{E9}', '\U{E9}'], "a@b", "secret", "secret")
    ensures !FormValid("ab", "a@b", "secret", "secret")
  {
    assert Utf8Length(['\U{E9}', '\U{E9}']) == 4 by {
      assert ['\U{E9}', '\U{E9}'][..1] == ['\U{E9}'];
      assert ['\U{E9}'][..0] == [];
    }
  }

  /**
   * ValidateEmailForm: the message of the first failing check, in the
   * order username, e-mail, password length, confirmation.
   */
  function FormError(username: string, email: string, password: string, confirm: string): (r: Option<string>)
    ensures r.None? <==> FormValid(username, email, password, confirm)
    ensures r == Some(UsernameTooShort) <==> Utf8Length(username) < 3
    ensures r == Some(InvalidEmail) <==> Utf8Length(username) >= 3 && '@' !in email
    ensures r == Some(PasswordTooShort) <==> Utf8Length(username) >= 3 && '@' in email && Utf8Length(password) < 6
    ensures r == Some(PasswordMismatch) <==>
      Utf8Length(username) >= 3 && '@' in email && Utf8Length(password) >= 6 && password != confirm
  {
    if Utf8Length(username) < 3 then Some(UsernameTooShort)
    else if email == [] || '@' !in email then Some(InvalidEmail)
    else if Utf8Length(password) < 6 then Some(PasswordTooShort)
    else if password != confirm then Some(PasswordMismatch)
    else None
  }

  /** OnEmailLogin's checks: an address with '@', then a non-empty password. */
  function LoginError(email: string, password: string): (r: Option<string>)
    ensures r.None? <==> '@' in email && password != ""
    ensures r == Some(InvalidEmail) <==> '@' !in email
    ensures r == Some(PasswordMissing) <==> '@' in email && password == ""
  {
    if email == [] || '@' !in email then Some(InvalidEmail)
    else if password == [] then Some(PasswordMissing)
    else None
  }

  // ---------------------------------------------------------------------
  // Screen selection
  // ---------------------------------------------------------------------

  /** RenderUI: the loading screen first, then the first form whose flag is set, else the welcome screen. */
  function ScreenFor(loading: bool, email: bool, emailLogin: bool, steam: bool, linked: bool): Screen
  {
    if loading then LoadingScreen
    else if email then EmailFormScreen
    else if emailLogin then EmailLoginScreen
    else if steam then SteamFormScreen
    else if linked then LinkedFormScreen
    else WelcomeScreen
  }

  /**
   * Each screen is drawn exactly when its flag is set and no flag before it
   * in the order loading, e-mail, login, Steam, linked is; the welcome
   * screen exactly when nothing is set.
   */
  lemma ScreenPrecedence(loading: bool, email: bool, emailLogin: bool, steam: bool, linked: bool)
    ensures var s := ScreenFor(loading, email, emailLogin, steam, linked);
      && (s == LoadingScreen <==> loading)
      && (s == EmailFormScreen <==> !loading && email)
      && (s == EmailLoginScreen <==> !loading && !email && emailLogin)
      && (s == SteamFormScreen <==> !loading && !email && !emailLogin && steam)
      && (s == LinkedFormScreen <==> !loading && !email && !emailLogin && !steam && linked)
      && (s == WelcomeScreen <==> !loading && !email && !emailLogin && !steam && !linked)
  {
  }

  // ---------------------------------------------------------------------
  // Answers
  // ---------------------------------------------------------------------

  /** How an exchange ended for the form: a token, or the message to show. */
  datatype Verdict = Accepted(token: string) | Refused(error: string)

  function VerdictOf(r: AuthResponse): (v: Verdict)
    ensures v.Accepted? <==> r.success
  {
    if r.success then Accepted(r.token) else Refused(r.error)
  }

  /** What reading the dev-login answer gives: the token, a refusal, or a thrown JSON exception. */
  datatype DevLoginRead = DevToken(token: string) | DevRefused | DevThrew

  /**
   * The dev-login answer: success must be a boolean (else the getter
   * throws); when it is true and data has a token, the token and
   * data.user.username must both be strings (else the getters throw).
   */
  function ReadDevLogin(root: JsonValue): (r: DevLoginRead)
    ensures r.DevToken? ==>
      && Has(root, "success") && Member(root, "success") == JBool(true)
      && Has(root, "data") && Has(Member(root, "data"), "token")
      && Member(Member(root, "data"), "token") == JString(r.token)
  {
    if !Has(root, "success") then DevRefused
    else match AsBool(Member(root, "success"))
      case None => DevThrew
      case Some(ok) =>
        if !ok || !Has(root, "data") || !Has(Member(root, "data"), "token") then DevRefused
        else
          var data := Member(root, "data");
          match AsString(Member(data, "token"))
          case None => DevThrew
          case Some(token) =>
            if Has(data, "user") && Has(Member(data, "user"), "username") && Member(Member(data, "user"), "username").JString?
            then DevToken(token)
            else DevThrew
  }

  /** The answer the server's dev-login route gives is read as its token. */
  lemma DevLoginReadsServerAnswer(token: string, username: string, user: map<string, JsonValue>)
    requires "username" in user && user["username"] == JString(username)
    ensures ReadDevLogin(JObject(map["success" := JBool(true),
                                     "data" := JObject(map["user" := JObject(user), "token" := JString(token)])]))
            == DevToken(token)
  {
    var data := JObject(map["user" := JObject(user), "token" := JString(token)]);
    var root := JObject(map["success" := JBool(true), "data" := data]);
    assert Has(root, "success") && Member(root, "success") == JBool(true);
    assert Has(root, "data") && Member(root, "data") == data;
    assert Has(data, "token") && Has(data, "user");
  }

  /**
   * The verdict of the dev-login exchange; detail stands for the JSON
   * library's exception text, which the message quotes.
   */
  function DevLoginVerdict(parse: string -> Option<JsonValue>, r: HttpResponse, detail: string): (v: Verdict)
    ensures !r.success ==> v == Refused(DevLoginFailedPrefix + r.error)
    ensures v.Accepted? ==> r.success && parse(r.data).Some? && ReadDevLogin(parse(r.data).value) == DevToken(v.token)
    ensures r.success && parse(r.data).None? ==> v == Refused(DevLoginUnreadable + ": " + detail)
  {
    if !r.success then Refused(DevLoginFailedPrefix + r.error)
    else match parse(r.data)
      case None => Refused(DevLoginUnreadable + ": " + detail)
      case Some(root) =>
        match ReadDevLogin(root)
        case DevToken(token) => Accepted(token)
        case DevRefused => Refused(DevLoginUnreadable)
        case DevThrew => Refused(DevLoginUnreadable + ": " + detail)
  }

  /** The part of the state an answer changes. */
  datatype AuthProgress = AuthProgress(loading: bool, handOff: bool, token: string, error: string, status: string)

  /**
   * OnAuthSuccess / OnAuthError after an exchange: loading ends; a token
   * is stored and handed off, a refusal shows its message and clears the
   * status.
   */
  function Finished(p: AuthProgress, v: Verdict): (q: AuthProgress)
    ensures !q.loading
    ensures q.handOff <==> p.handOff || v.Accepted?
    ensures v.Accepted? ==> q.token == v.token && q.status == SuccessStatus && q.error == p.error
    ensures v.Refused? ==> q.token == p.token && q.error == v.error && q.status == ""
  {
    match v
    case Accepted(token) => p.(loading := false, status := SuccessStatus, token := token, handOff := true)
    case Refused(error) => p.(loading := false, error := error, status := "")
  }

  /** The forms on show. */
  datatype FormFlags = FormFlags(chosen: AuthMethod, email: bool, emailLogin: bool, steam: bool, linked: bool)

  const NoForms: FormFlags := FormFlags(NoMethod, false, false, false, false)

  /** The request the registration form sends once its address is known to be free. */
  function RegisterRequest(parse: string -> Option<JsonValue>, username: string, email: string, password: string): Request
  {
    Request(ChooseMethod, Post, AuthJson(CreateAuthJson(parse, "email", username, email, password, "", "")), true, EmailRegistered)
  }

  const DevLoginRequest: Request := Request(DevLoginPath, Post, EmptyObject, false, DevLogin)

  const TestTokenPrefix: string := "test_token_for_development_"

  /** The token of the test-mode button: the prefix, then the clock's seconds as std::to_string writes them. */
  function TestToken(now: int): (t: string)
    ensures |t| > |TestTokenPrefix| && t[..|TestTokenPrefix|] == TestTokenPrefix
    ensures ParseDecimal(t[|TestTokenPrefix|..]) == Some(now)
  {
    var t := TestTokenPrefix + IntToString(now);
    IntToStringRoundTrip(now);
    assert t[|TestTokenPrefix|..] == IntToString(now);
    t
  }

  /** Test-mode sign-ins at two different seconds get two different tokens. */
  lemma TestTokensDiffer(a: int, b: int)
    ensures a != b ==> TestToken(a) != TestToken(b)
  {
    if a != b {
      var k := |TestTokenPrefix|;
      assert ParseDecimal(TestToken(a)[k..]) != ParseDecimal(TestToken(b)[k..]);
    }
  }

  /** The linked form's Create button works only with Steam running and a name, an address and a password typed. */
  predicate CanCreateLinked(steamRunning: bool, username: string, email: string, password: string)
  {
    steamRunning && username != "" && email != "" && password != ""
  }

  class AuthChoiceState {
    var selectedMethod: AuthMethod
    var isFirstTime: bool
    var username: string
    var email: string
    var password: string
    var confirmPassword: string
    var showEmailForm: bool
    var showEmailLoginForm: bool
    var showSteamForm: bool
    var showLinkedForm: bool
    var isLoading: bool
    var authSuccessful: bool
    var errorMessage: string
    var statusMessage: string
    var steamId: string
    var steamUsername: string
    var steamAvatar: string
    var authToken: string
    const net: AuthNetworkManager

    /** The account creation a failed Steam login falls back to. */
    function SteamCreateRequest(): Request
      reads this`steamId, this`steamUsername, this`steamAvatar
    {
      Request(ChooseMethod, Post,
        AuthJson(CreateAuthJson(net.parse, "steam", "", "", "", steamId, SteamDataText(steamUsername, steamAvatar))),
        true, SteamCreated)
    }

    /** The linked registration sent once the linked form's address is known to be free. */
    function LinkedCreateRequest(): Request
      reads this`username, this`email, this`password, this`steamId, this`steamAvatar
    {
      Request(ChooseMethod, Post,
        AuthJson(CreateAuthJson(net.parse, "linked", username, email, password, steamId,
                                SteamDataText(username, steamAvatar))), true, LinkedCreated)
    }

    function Progress(): AuthProgress
      reads this`isLoading, this`authSuccessful, this`authToken, this`errorMessage, this`statusMessage
    {
      AuthProgress(isLoading, authSuccessful, authToken, errorMessage, statusMessage)
    }

    function Forms(): FormFlags
      reads this`selectedMethod, this`showEmailForm, this`showEmailLoginForm, this`showSteamForm, this`showLinkedForm
    {
      FormFlags(selectedMethod, showEmailForm, showEmailLoginForm, showSteamForm, showLinkedForm)
    }

    function Screen(): Screen
      reads this`isLoading, this`showEmailForm, this`showEmailLoginForm, this`showSteamForm, this`showLinkedForm
    {
      ScreenFor(isLoading, showEmailForm, showEmailLoginForm, showSteamForm, showLinkedForm)
    }

    /**
     * The constructor: nothing shown, empty texts (the default-constructed
     * strings), no Steam data (InitializeSteam clears it), a fresh network
     * manager.
     */
    constructor (parse: string -> Option<JsonValue>)
      ensures Forms() == NoForms && isFirstTime
      ensures !isLoading && !authSuccessful
      ensures authToken == "" && errorMessage == "" && statusMessage == ""
      ensures username == "" && email == "" && password == "" && confirmPassword == ""
      ensures steamId == "" && steamUsername == "" && steamAvatar == ""
      ensures fresh(net) && net.queue == [] && net.inFlight == [] && net.parse == parse
    {
      authToken := "";
      errorMessage := "";
      statusMessage := "";
      username := "";
      email := "";
      password := "";
      confirmPassword := "";
      selectedMethod := NoMethod;
      isFirstTime := true;
      showEmailForm := false;
      showEmailLoginForm := false;
      showSteamForm := false;
      showLinkedForm := false;
      isLoading := false;
      authSuccessful := false;
      steamId := "";
      steamUsername := "";
      steamAvatar := "";
      net := new AuthNetworkManager(parse);
    }

    /** Clears the form text fields. */
    method ClearFormFields()
      modifies this`username, this`email, this`password, this`confirmPassword
      ensures username == "" && email == "" && password == "" && confirmPassword == ""
    {
      username := "";
      email := "";
      password := "";
      confirmPassword := "";
    }

    /** Hides every form. */
    method HideForms()
      modifies this`selectedMethod, this`showEmailForm, this`showEmailLoginForm, this`showSteamForm, this`showLinkedForm
      ensures Forms() == NoForms
    {
      selectedMethod := NoMethod;
      showEmailForm := false;
      showEmailLoginForm := false;
      showSteamForm := false;
      showLinkedForm := false;
    }

    /**
     * Entering the screen clears every flag, message and form field, then
     * logs in at once through the development endpoint.
     */
    method OnEnter()
      modifies this`isFirstTime, this`selectedMethod, this`showEmailForm, this`showEmailLoginForm, this`showSteamForm,
               this`showLinkedForm, this`isLoading, this`authSuccessful, this`errorMessage, this`statusMessage,
               this`username, this`email, this`password, this`confirmPassword, net`queue
      ensures isFirstTime && Forms() == NoForms
      ensures Progress() == AuthProgress(true, false, old(authToken), "", DevLoginStatus)
      ensures username == "" && email == "" && password == "" && confirmPassword == ""
      ensures net.queue == old(net.queue) + [DevLoginRequest]
    {
      ResetScreen();
      isLoading := true;
      statusMessage := DevLoginStatus;
      net.MakeHttpRequest(DevLoginPath, Post, EmptyObject, DevLogin);
    }

    /** Clears every flag, message and form field. */
    method ResetScreen()
      modifies this`isFirstTime, this`selectedMethod, this`showEmailForm, this`showEmailLoginForm, this`showSteamForm,
               this`showLinkedForm, this`isLoading, this`authSuccessful, this`errorMessage, this`statusMessage,
               this`username, this`email, this`password, this`confirmPassword
      ensures isFirstTime && Forms() == NoForms
      ensures Progress() == AuthProgress(false, false, old(authToken), "", "")
      ensures username == "" && email == "" && password == "" && confirmPassword == ""
    {
      isFirstTime := true;
      HideForms();
      isLoading := false;
      authSuccessful := false;
      errorMessage := "";
      statusMessage := "";
      ClearFormFields();
    }

    /** ESC leaves a form for the choice screen; with no form on show it does nothing. */
    method HandleEscape()
      modifies this`selectedMethod, this`showEmailForm, this`showEmailLoginForm, this`showSteamForm, this`showLinkedForm,
               this`errorMessage, this`statusMessage
      ensures old(showEmailForm || showEmailLoginForm || showSteamForm || showLinkedForm) ==>
        Forms() == NoForms && errorMessage == "" && statusMessage == ""
      ensures !old(showEmailForm || showEmailLoginForm || showSteamForm || showLinkedForm) ==>
        unchanged(this`selectedMethod, this`errorMessage, this`statusMessage) && Forms() == old(Forms())
    {
      if showEmailForm || showEmailLoginForm || showSteamForm || showLinkedForm {
        OnBackToChoice();
      }
    }

    /**
     * One frame: the network manager hands on its front request; a pending
     * success is consumed, and next carries the token the home screen is
     * created with (None: stay on this screen).
     */
    method Update(handleObtained: bool) returns (next: Option<string>)
      modifies net`queue, net`inFlight, this`authSuccessful
      ensures next == if old(authSuccessful) then Some(authToken) else None
      ensures !authSuccessful
      ensures net.queue == if old(net.queue) == [] then [] else old(net.queue)[1..]
    {
      net.Update(handleObtained);
      next := None;
      if authSuccessful {
        authSuccessful := false;
        next := Some(authToken);
      }
    }

    /** Opens the form of the chosen method (Steam and linked also refresh the Steam data) and clears the error. */
    method OnMethodSelected(m: AuthMethod)
      modifies this`selectedMethod, this`errorMessage, this`showSteamForm, this`showEmailForm, this`showLinkedForm,
               this`steamId, this`steamUsername, this`steamAvatar
      ensures selectedMethod == m && errorMessage == ""
      ensures showSteamForm == (old(showSteamForm) || m == SteamMethod)
      ensures showEmailForm == (old(showEmailForm) || m == EmailMethod)
      ensures showLinkedForm == (old(showLinkedForm) || m == LinkedMethod)
      ensures m == SteamMethod || m == LinkedMethod ==> steamId == "" && steamUsername == "" && steamAvatar == ""
      ensures m == NoMethod || m == EmailMethod ==> unchanged(this`steamId, this`steamUsername, this`steamAvatar)
    {
      selectedMethod := m;
      errorMessage := "";
      match m
      case SteamMethod =>
        showSteamForm := true;
        GetSteamUserData();
      case EmailMethod =>
        showEmailForm := true;
      case LinkedMethod =>
        showLinkedForm := true;
        GetSteamUserData();
      case NoMethod =>
    }

    /** Steam is taken to be running; reading its user data clears the placeholders. */
    method GetSteamUserData()
      modifies this`steamId, this`steamUsername, this`steamAvatar
      ensures steamId == "" && steamUsername == "" && steamAvatar == ""
    {
      steamId := "";
      steamUsername := "";
      steamAvatar := "";
    }

    /** Tries to log in with Steam; an unknown Steam user is registered from the answer. */
    method OnSteamAuth()
      modifies this`steamId, this`steamUsername, this`steamAvatar, this`isLoading, this`statusMessage,
               this`errorMessage, net`queue
      ensures steamId == "" && steamUsername == "" && steamAvatar == ""
      ensures isLoading && statusMessage == SteamStatus && errorMessage == ""
      ensures net.queue == old(net.queue) + [Request(SteamAuth, Post,
        AuthJson(CreateAuthJson(net.parse, "steam", "", "", "", "", "")), true, SteamLogin)]
    {
      GetSteamUserData();
      isLoading := true;
      statusMessage := SteamStatus;
      errorMessage := "";
      net.LoginSteamUser(steamId, SteamLogin);
    }

    /** ValidateEmailForm: true exactly for a valid form; otherwise the first failing check's message is shown. */
    method ValidateEmailForm() returns (ok: bool)
      modifies this`errorMessage
      ensures ok <==> FormValid(username, email, password, confirmPassword)
      ensures !ok ==> Some(errorMessage) == FormError(username, email, password, confirmPassword)
      ensures ok ==> errorMessage == old(errorMessage)
    {
      var e := FormError(username, email, password, confirmPassword);
      ok := e.None?;
      if !ok {
        errorMessage := e.value;
      }
    }

    /** ValidateLinkedForm: Steam always counts as running, so this is ValidateEmailForm. */
    method ValidateLinkedForm() returns (ok: bool)
      modifies this`errorMessage
      ensures ok <==> FormValid(username, email, password, confirmPassword)
      ensures !ok ==> Some(errorMessage) == FormError(username, email, password, confirmPassword)
      ensures ok ==> errorMessage == old(errorMessage)
    {
      ok := ValidateEmailForm();
    }

    /** Starts the e-mail check that precedes a registration. */
    method CheckEmailAndRegister()
      modifies this`isLoading, this`statusMessage, this`errorMessage, net`queue
      ensures isLoading && statusMessage == CheckingEmailStatus && errorMessage == ""
      ensures net.queue == old(net.queue) + [Request(CheckEmail(email), Get, NoBody, false, EmailExists(ForEmailRegistration))]
    {
      isLoading := true;
      statusMessage := CheckingEmailStatus;
      errorMessage := "";
      net.CheckEmailExists(email, ForEmailRegistration);
    }

    /** A registration sends nothing unless the form is valid; then the address is checked first. */
    method OnEmailRegister()
      modifies this`isLoading, this`statusMessage, this`errorMessage, net`queue
      ensures !FormValid(username, email, password, confirmPassword) ==>
        && Some(errorMessage) == FormError(username, email, password, confirmPassword)
        && unchanged(this`isLoading, this`statusMessage) && net.queue == old(net.queue)
      ensures FormValid(username, email, password, confirmPassword) ==>
        && isLoading && statusMessage == CheckingEmailStatus && errorMessage == ""
        && net.queue == old(net.queue) + [Request(CheckEmail(email), Get, NoBody, false, EmailExists(ForEmailRegistration))]
    {
      var ok := ValidateEmailForm();
      if ok {
        CheckEmailAndRegister();
      }
    }

    /** A linked registration: the same form checks, then the address is checked before the account is created. */
    method OnLinkedRegister()
      modifies this`isLoading, this`statusMessage, this`errorMessage, this`steamId, this`steamUsername,
               this`steamAvatar, net`queue
      ensures !FormValid(username, email, password, confirmPassword) ==>
        && Some(errorMessage) == FormError(username, email, password, confirmPassword)
        && unchanged(this`isLoading, this`statusMessage, this`steamId) && net.queue == old(net.queue)
      ensures FormValid(username, email, password, confirmPassword) ==>
        && isLoading && statusMessage == CheckingEmailStatus && errorMessage == ""
        && steamId == "" && steamUsername == "" && steamAvatar == ""
        && net.queue == old(net.queue) + [Request(CheckEmail(email), Get, NoBody, false, EmailExists(ForLinkedRegistration))]
    {
      var ok := ValidateLinkedForm();
      if !ok {
        return;
      }
      GetSteamUserData();
      isLoading := true;
      statusMessage := CheckingEmailStatus;
      errorMessage := "";
      net.CheckEmailExists(email, ForLinkedRegistration);
    }

    /** Back to the choice screen: no method, no form, no messages. */
    method OnBackToChoice()
      modifies this`selectedMethod, this`showEmailForm, this`showEmailLoginForm, this`showSteamForm, this`showLinkedForm,
               this`errorMessage, this`statusMessage
      ensures Forms() == NoForms && errorMessage == "" && statusMessage == ""
    {
      HideForms();
      errorMessage := "";
      statusMessage := "";
    }

    /** The test-mode button: signs in at once with a development token made from the clock. */
    method OnTestMode(now: int)
      modifies this`isLoading, this`statusMessage, this`authToken, this`authSuccessful
      ensures Progress() == Finished(old(Progress()), Accepted(TestToken(now)))
    {
      OnAuthSuccess(TestToken(now));
    }

    /** The choice screen's login button: the e-mail method with its login form. */
    method OnLoginButton()
      modifies this`selectedMethod, this`showEmailLoginForm
      ensures selectedMethod == EmailMethod && showEmailLoginForm
    {
      selectedMethod := EmailMethod;
      showEmailLoginForm := true;
    }

    /** "Have an account? Login" on the registration form. */
    method SwitchToLogin()
      modifies this`showEmailForm, this`showEmailLoginForm
      ensures !showEmailForm && showEmailLoginForm
    {
      showEmailForm := false;
      showEmailLoginForm := true;
    }

    /** "Don't have an account? Sign up" on the login form. */
    method SwitchToSignup()
      modifies this`showEmailForm, this`showEmailLoginForm
      ensures showEmailForm && !showEmailLoginForm
    {
      showEmailLoginForm := false;
      showEmailForm := true;
    }

    /** Steam set-up (a placeholder in the client): clears the Steam user data. */
    method InitializeSteam()
      modifies this`steamId, this`steamUsername, this`steamAvatar
      ensures steamId == "" && steamUsername == "" && steamAvatar == ""
    {
      steamId := "";
      steamUsername := "";
      steamAvatar := "";
    }

    /** The Steam form's Retry button, shown when Steam is not running. */
    method OnRetrySteam()
      modifies this`steamId, this`steamUsername, this`steamAvatar
      ensures steamId == "" && steamUsername == "" && steamAvatar == ""
    {
      InitializeSteam();
    }

    /**
     * The linked form's Create button: without Steam running and a name, an
     * address and a password it does nothing; otherwise it is OnLinkedRegister.
     */
    method OnCreateLinkedButton(steamRunning: bool)
      modifies this`isLoading, this`statusMessage, this`errorMessage, this`steamId, this`steamUsername,
               this`steamAvatar, net`queue
      ensures !CanCreateLinked(steamRunning, username, email, password) ==>
        unchanged(this`isLoading, this`statusMessage, this`errorMessage, this`steamId, this`steamUsername,
                  this`steamAvatar) && net.queue == old(net.queue)
      ensures CanCreateLinked(steamRunning, username, email, password)
              && !FormValid(username, email, password, confirmPassword) ==>
        && Some(errorMessage) == FormError(username, email, password, confirmPassword)
        && unchanged(this`isLoading, this`statusMessage, this`steamId) && net.queue == old(net.queue)
      ensures CanCreateLinked(steamRunning, username, email, password)
              && FormValid(username, email, password, confirmPassword) ==>
        && isLoading && statusMessage == CheckingEmailStatus && errorMessage == ""
        && steamId == "" && steamUsername == "" && steamAvatar == ""
        && net.queue == old(net.queue) + [Request(CheckEmail(email), Get, NoBody, false, EmailExists(ForLinkedRegistration))]
    {
      if CanCreateLinked(steamRunning, username, email, password) {
        OnLinkedRegister();
      }
    }

    /** A login sends nothing unless the address has an '@' and the password is not empty. */
    method OnEmailLogin()
      modifies this`isLoading, this`statusMessage, this`errorMessage, net`queue
      ensures LoginError(email, password).Some? ==>
        && Some(errorMessage) == LoginError(email, password)
        && unchanged(this`isLoading, this`statusMessage) && net.queue == old(net.queue)
      ensures LoginError(email, password).None? ==>
        && isLoading && statusMessage == LoggingInStatus && errorMessage == ""
        && net.queue == old(net.queue) + [Request(Login, Post,
             AuthJson(CreateAuthJson(net.parse, "login", "", email, password, "", "")), true, EmailLoggedIn)]
    {
      var e := LoginError(email, password);
      if e.Some? {
        errorMessage := e.value;
        return;
      }
      isLoading := true;
      statusMessage := LoggingInStatus;
      errorMessage := "";
      net.LoginEmailUser(email, password, EmailLoggedIn);
    }

    method OnAuthSuccess(token: string)
      modifies this`isLoading, this`statusMessage, this`authToken, this`authSuccessful
      ensures Progress() == Finished(old(Progress()), Accepted(token))
    {
      isLoading := false;
      statusMessage := SuccessStatus;
      authToken := token;
      authSuccessful := true;
    }

    method OnAuthError(error: string)
      modifies this`isLoading, this`errorMessage, this`statusMessage
      ensures Progress() == Finished(old(Progress()), Refused(error))
    {
      isLoading := false;
      errorMessage := error;
      statusMessage := "";
    }

    /** The closure of every request that ends an exchange: success hands the token off, failure shows the error. */
    method OnVerdict(v: Verdict)
      modifies this`isLoading, this`statusMessage, this`authToken, this`authSuccessful, this`errorMessage
      ensures Progress() == Finished(old(Progress()), v)
    {
      match v
      case Accepted(token) => OnAuthSuccess(token);
      case Refused(error) => OnAuthError(error);
    }

    /** The answer to the registration's e-mail check. */
    method OnEmailCheckResult(taken: bool, error: string)
      modifies this`isLoading, this`statusMessage, this`errorMessage, net`queue
      ensures error != "" ==>
        !isLoading && errorMessage == NetworkErrorPrefix + error && statusMessage == "" && net.queue == old(net.queue)
      ensures error == "" && taken ==>
        !isLoading && errorMessage == EmailInUse && statusMessage == "" && net.queue == old(net.queue)
      ensures error == "" && !taken ==>
        && isLoading && statusMessage == CreatingAccountStatus && errorMessage == ""
        && net.queue == old(net.queue) + [RegisterRequest(net.parse, username, email, password)]
    {
      isLoading := false;
      if error != "" {
        errorMessage := NetworkErrorPrefix + error;
        statusMessage := "";
        return;
      }
      if taken {
        errorMessage := EmailInUse;
        statusMessage := "";
        return;
      }
      isLoading := true;
      statusMessage := CreatingAccountStatus;
      errorMessage := "";
      net.RegisterEmailUser(username, email, password, EmailRegistered);
    }

    /** The answer to the linked registration's e-mail check; the status stays as it was on a refusal. */
    method OnLinkedEmailCheckResult(taken: bool, error: string)
      modifies this`isLoading, this`statusMessage, this`errorMessage, net`queue
      ensures error != "" ==>
        && !isLoading && errorMessage == NetworkErrorPrefix + error
        && statusMessage == old(statusMessage) && net.queue == old(net.queue)
      ensures error == "" && taken ==>
        && !isLoading && errorMessage == LinkedEmailInUse
        && statusMessage == old(statusMessage) && net.queue == old(net.queue)
      ensures error == "" && !taken ==>
        && statusMessage == CreatingLinkedStatus && unchanged(this`isLoading, this`errorMessage)
        && net.queue == old(net.queue) + [LinkedCreateRequest()]
    {
      if error != "" {
        isLoading := false;
        errorMessage := NetworkErrorPrefix + error;
        return;
      }
      if taken {
        isLoading := false;
        errorMessage := LinkedEmailInUse;
        return;
      }
      statusMessage := CreatingLinkedStatus;
      net.CreateLinkedUser(username, email, password, steamId, steamAvatar, LinkedCreated);
    }

    /** The answer to the Steam login: a known user is in, an unknown one is registered. */
    method OnSteamLoginResult(r: AuthResponse)
      modifies this`isLoading, this`statusMessage, this`authToken, this`authSuccessful, this`errorMessage, net`queue
      ensures r.success ==> Progress() == Finished(old(Progress()), Accepted(r.token)) && net.queue == old(net.queue)
      ensures !r.success ==> Progress() == old(Progress())
      ensures !r.success ==> net.queue == old(net.queue) + [SteamCreateRequest()]
    {
      if r.success {
        OnAuthSuccess(r.token);
      } else {
        net.CreateSteamUser(steamId, steamUsername, steamAvatar, SteamCreated);
      }
    }

    /**
     * Delivers the outcome of a finished request to the closure that
     * belongs to this screen. detail is the JSON library's exception text.
     * A token is handed off only when the server accepted the exchange.
     */
    method Deliver(callback: Callback, outcome: Outcome, detail: string)
      requires IsAuthCallback(callback) <==> outcome.AuthOutcome?
      modifies this`isLoading, this`statusMessage, this`authToken, this`authSuccessful, this`errorMessage, net`queue
      ensures callback.DevLogin? ==>
        Progress() == Finished(old(Progress()), DevLoginVerdict(net.parse, outcome.http, detail))
      ensures callback.SteamCreated? || callback.EmailRegistered? || callback.EmailLoggedIn? || callback.LinkedCreated? ==>
        Progress() == Finished(old(Progress()), VerdictOf(outcome.auth))
      ensures authSuccessful && !old(authSuccessful) ==>
        || (callback.DevLogin? && DevLoginVerdict(net.parse, outcome.http, detail) == Accepted(authToken))
        || (IsAuthCallback(callback) && outcome.auth.success && outcome.auth.token == authToken)
      ensures callback.SteamLogin? && outcome.auth.success ==>
        Progress() == Finished(old(Progress()), Accepted(outcome.auth.token)) && net.queue == old(net.queue)
      ensures callback.SteamLogin? && !outcome.auth.success ==>
        Progress() == old(Progress()) && net.queue == old(net.queue) + [SteamCreateRequest()]
      ensures callback.EmailExists? ==> unchanged(this`authToken, this`authSuccessful)
      ensures callback.EmailExists? ==> var (taken, error) := EmailCheckResult(net.parse, outcome.http);
        && (error != "" ==> !isLoading && errorMessage == NetworkErrorPrefix + error && net.queue == old(net.queue))
        && (error == "" && taken ==>
              && !isLoading && net.queue == old(net.queue)
              && errorMessage == if callback.purpose == ForEmailRegistration then EmailInUse else LinkedEmailInUse)
        && (error == "" && !taken && callback.purpose == ForEmailRegistration ==>
              && isLoading && statusMessage == CreatingAccountStatus && errorMessage == ""
              && net.queue == old(net.queue) + [RegisterRequest(net.parse, username, email, password)])
        && (error == "" && !taken && callback.purpose != ForEmailRegistration ==>
              && statusMessage == CreatingLinkedStatus && unchanged(this`isLoading, this`errorMessage)
              && net.queue == old(net.queue) + [LinkedCreateRequest()])
      ensures !IsAuthCallback(callback) && !callback.DevLogin? && !callback.EmailExists? ==>
        Progress() == old(Progress()) && net.queue == old(net.queue)
    {
      match callback
      case DevLogin =>
        OnVerdict(DevLoginVerdict(net.parse, outcome.http, detail));
      case SteamLogin =>
        OnSteamLoginResult(outcome.auth);
      case EmailExists(purpose) =>
        var (taken, error) := EmailCheckResult(net.parse, outcome.http);
        if purpose == ForEmailRegistration {
          OnEmailCheckResult(taken, error);
        } else {
          OnLinkedEmailCheckResult(taken, error);
        }
      case SteamCreated =>
        OnVerdict(VerdictOf(outcome.auth));
      case EmailRegistered =>
        OnVerdict(VerdictOf(outcome.auth));
      case EmailLoggedIn =>
        OnVerdict(VerdictOf(outcome.auth));
      case LinkedCreated =>
        OnVerdict(VerdictOf(outcome.auth));
      case _ =>
    }
  }
}
