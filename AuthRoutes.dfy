// The authentication endpoints: choosing a sign-in method when creating an
// account, Steam sign-in, email registration and login, linking Steam to an
// email account, the current user, the email-availability check and the
// development login. Request body fields are optional texts (None is an
// absent field); express-validator's isEmail and the password hashing and
// checking are parameters; database rows are inputs.
module AuthRoutes {
  import opened Common
  import opened Api
  import opened UserService

  datatype SteamData = SteamData(username: Option<string>, avatar: Option<string>)

  function SteamUsernameOf(d: Option<SteamData>): Option<string>
  {
    if d.Some? then d.value.username else None
  }

  function SteamAvatarOf(d: Option<SteamData>): Option<string>
  {
    if d.Some? then d.value.avatar else None
  }

  // ---------------------------------------------------------------------
  // POST /api/auth/choose-method
  // ---------------------------------------------------------------------

  datatype ChooseBody = ChooseBody(authMethod: Option<string>, username: Option<string>, email: Option<string>,
                                   password: Option<string>, steamId: Option<string>, steamData: Option<SteamData>)

  const MethodMessage := "Authentication method must be steam, email, or linked"
  const ChooseEmailMessage := "Valid email is required for email or linked authentication"
  const ChoosePasswordMessage := "Password must be at least 6 characters for email or linked authentication"
  const ChooseSteamIdMessage := "Steam ID is required for Steam or linked authentication"

  predicate UsesEmail(b: ChooseBody) { TextOf(b.authMethod) in {"email", "linked"} }

  predicate UsesSteam(b: ChooseBody) { TextOf(b.authMethod) in {"steam", "linked"} }

  /**
   * The validation errors of choose-method, in the order of its chains: the
   * method, the username, then the email and password for email or linked
   * accounts and the Steam id for Steam or linked accounts.
   */
  function ChooseMethodErrors(b: ChooseBody, isEmail: string -> bool): seq<FieldError>
  {
    (if TextOf(b.authMethod) in {"steam", "email", "linked"} then [] else [FieldError("authMethod", MethodMessage)])
    + UsernameErrors(TextOf(b.username))
    + (if UsesEmail(b) && !isEmail(TextOf(b.email)) then [FieldError("email", ChooseEmailMessage)] else [])
    + (if UsesEmail(b) && VisibleLength(TextOf(b.password)) < 6 then [FieldError("password", ChoosePasswordMessage)] else [])
    + (if UsesSteam(b) && !NotEmpty(b.steamId) then [FieldError("steamId", ChooseSteamIdMessage)] else [])
  }

  /**
   * A body passes exactly when the method is steam, email or linked, the
   * username has 3 to 20 letters, digits or underscores, an email or linked
   * account brings a valid email and a password of at least 6 characters,
   * and a Steam or linked account brings a Steam id.
   */
  lemma ChooseMethodAccepts(b: ChooseBody, isEmail: string -> bool)
    ensures ChooseMethodErrors(b, isEmail) == [] <==>
      TextOf(b.authMethod) in {"steam", "email", "linked"} &&
      3 <= |TextOf(b.username)| <= 20 &&
      (forall i :: 0 <= i < |TextOf(b.username)| ==> IsUsernameChar(TextOf(b.username)[i])) &&
      (UsesEmail(b) ==> isEmail(TextOf(b.email)) && VisibleLength(TextOf(b.password)) >= 6) &&
      (UsesSteam(b) ==> NotEmpty(b.steamId))
  {
    UsernameErrorsExact(TextOf(b.username));
  }

  /** The account choose-method creates. */
  datatype NewAccount =
    | NewSteam(steamId: string, name: Option<string>, avatar: Option<string>)
    | NewEmail(username: string, email: string, password: string)
    | NewLinked(username: string, email: string, password: string, steamId: string, avatar: Option<string>)

  /**
   * The account a valid body asks for, or the validation errors. A Steam
   * account takes the username, falling back to the Steam profile's name.
   */
  function ChooseMethodPlan(b: ChooseBody, isEmail: string -> bool): (r: Result<NewAccount, seq<FieldError>>)
    ensures r.Err? <==> ChooseMethodErrors(b, isEmail) != []
    ensures r.Err? ==> r.error == ChooseMethodErrors(b, isEmail)
    ensures r.Ok? ==> (r.value.NewSteam? <==> b.authMethod == Some("steam"))
    ensures r.Ok? ==> (r.value.NewEmail? <==> b.authMethod == Some("email"))
    ensures r.Ok? ==> (r.value.NewLinked? <==> b.authMethod == Some("linked"))
  {
    var errors := ChooseMethodErrors(b, isEmail);
    if errors != [] then Err(errors)
    else
      var name := TextOf(b.username);
      match TextOf(b.authMethod)
      case "steam" =>
        Ok(NewSteam(TextOf(b.steamId), if Given(b.username) then b.username else SteamUsernameOf(b.steamData),
                    SteamAvatarOf(b.steamData)))
      case "email" => Ok(NewEmail(name, TextOf(b.email), TextOf(b.password)))
      case _ => Ok(NewLinked(name, TextOf(b.email), TextOf(b.password), TextOf(b.steamId), SteamAvatarOf(b.steamData)))
  }

  /**
   * Validation demands a username for every method, so a Steam account is
   * always named by the request's username: neither the Steam profile's
   * name nor the generated "Steam_" name is ever used through this route.
   */
  lemma SteamFallbackUnused(b: ChooseBody, isEmail: string -> bool, newId: int)
    requires ChooseMethodPlan(b, isEmail).Ok? && ChooseMethodPlan(b, isEmail).value.NewSteam?
    ensures var plan := ChooseMethodPlan(b, isEmail).value;
      plan.name == b.username && Given(b.username) &&
      CreateSteamUser(Ok(None), newId, plan.steamId, plan.name, plan.avatar, None).value.username == b.username.value
  {
    ChooseMethodAccepts(b, isEmail);
  }

  /** Creates the planned account with the user service. */
  function Create(plan: NewAccount, existingSteam: Lookup, newId: int, passwordHash: string,
                  insertError: Option<string>): (r: Result<Profile, string>)
    ensures plan.NewEmail? && r.Ok? ==> r.value.authMethod == "email" && r.value.username == plan.username
    ensures plan.NewLinked? && r.Ok? ==> r.value.authMethod == "linked" && r.value.steamId == Some(plan.steamId)
    ensures plan.NewSteam? && existingSteam == Ok(None) && r.Ok? ==> r.value.authMethod == "steam" && r.value.steamId == Some(plan.steamId)
    ensures plan.NewSteam? && existingSteam.Err? ==> r == Err(existingSteam.error)
  {
    match plan
    case NewSteam(steamId, username, avatar) => CreateSteamUser(existingSteam, newId, steamId, username, avatar, insertError)
    case NewEmail(username, email, _) => CreateUser(newId, username, email, passwordHash, insertError)
    case NewLinked(username, email, _, steamId, avatar) =>
      CreateLinkedUser(newId, username, email, passwordHash, steamId, avatar, insertError)
  }

  /**
   * choose-method: 400 with the validation errors before anything is
   * created; otherwise 201 with the account, or the service's error passed on.
   */
  function ChooseMethod(b: ChooseBody, isEmail: string -> bool, existingSteam: Lookup, newId: int,
                        passwordHash: string, insertError: Option<string>): (r: Reply<Profile>)
    ensures ChooseMethodErrors(b, isEmail) != [] ==> r == Invalid(ChooseMethodErrors(b, isEmail))
    ensures r.Success? ==> r.status == 201 && ChooseMethodErrors(b, isEmail) == []
    ensures ChooseMethodErrors(b, isEmail) == [] && insertError.Some? && !(b.authMethod == Some("steam") && existingSteam != Ok(None)) ==>
      r == Forwarded(insertError.value)
    ensures ChooseMethodErrors(b, isEmail) == [] && b.authMethod == Some("steam") && existingSteam.Err? ==>
      r == Forwarded(existingSteam.error)
  {
    match ChooseMethodPlan(b, isEmail)
    case Err(errors) => Invalid(errors)
    case Ok(plan) =>
      match Create(plan, existingSteam, newId, passwordHash, insertError)
      case Ok(user) => Success(201, user)
      case Err(message) => Forwarded(message)
  }

  // ---------------------------------------------------------------------
  // POST /api/auth/steam
  // ---------------------------------------------------------------------

  datatype SteamBody = SteamBody(steamId: Option<string>, steamData: Option<SteamData>)

  const SteamIdRequired := "Steam ID is required"
  const SteamNameMessage := "Steam username must be 1-50 characters"

  function SteamLoginErrors(b: SteamBody): seq<FieldError>
  {
    (if NotEmpty(b.steamId) then [] else [FieldError("steamId", SteamIdRequired)])
    + (if SteamUsernameOf(b.steamData).Some? && !LengthBetween(SteamUsernameOf(b.steamData).value, 1, 50)
       then [FieldError("steamData.username", SteamNameMessage)] else [])
  }

  /**
   * Steam sign-in: the known account, or a new Steam account made from the
   * request. The source's 404 for an unknown account is never sent, since
   * signing in creates the account.
   */
  function SteamLogin(b: SteamBody, existing: Lookup, recheck: Lookup, newId: int, insertError: Option<string>): (r: Reply<Profile>)
    ensures SteamLoginErrors(b) != [] <==> r.Invalid?
    ensures !r.Failure?
    ensures SteamLoginErrors(b) == [] && existing.Ok? && existing.value.Some? ==> r == Success(200, existing.value.value)
    ensures SteamLoginErrors(b) == [] && existing.Err? ==> r == Forwarded(existing.error)
    ensures r.Success? && existing == Ok(None) && recheck == Ok(None) ==>
      r.data.steamId == Some(TextOf(b.steamId)) && r.data.authMethod == "steam"
  {
    var errors := SteamLoginErrors(b);
    if errors != [] then Invalid(errors)
    else
      match LoginSteamUser(existing, recheck, newId, TextOf(b.steamId), SteamUsernameOf(b.steamData), SteamAvatarOf(b.steamData), insertError)
      case Ok(user) => Success(200, user)
      case Err(message) => Forwarded(message)
  }

  // ---------------------------------------------------------------------
  // POST /api/auth/register and POST /api/auth/login
  // ---------------------------------------------------------------------

  datatype Credentials = Credentials(username: Option<string>, email: Option<string>, password: Option<string>)

  const ValidEmailMessage := "Please enter a valid email"
  const PasswordLengthMessage := "Password must be at least 6 characters"
  const PasswordRequired := "Password is required"

  function RegisterErrors(b: Credentials, isEmail: string -> bool): seq<FieldError>
  {
    UsernameErrors(TextOf(b.username))
    + (if isEmail(TextOf(b.email)) then [] else [FieldError("email", ValidEmailMessage)])
    + (if VisibleLength(TextOf(b.password)) >= 6 then [] else [FieldError("password", PasswordLengthMessage)])
  }

  /** register: 400 with the validation errors, else 201 with a new email account, or the service's error. */
  function Register(b: Credentials, isEmail: string -> bool, newId: int, passwordHash: string,
                    insertError: Option<string>): (r: Reply<Profile>)
    ensures RegisterErrors(b, isEmail) != [] <==> r.Invalid?
    ensures r.Success? ==> (r.status == 201 && r.data.authMethod == "email" && r.data.username == TextOf(b.username) &&
      r.data.passwordHash.None?)
  {
    var errors := RegisterErrors(b, isEmail);
    if errors != [] then Invalid(errors)
    else match CreateUser(newId, TextOf(b.username), TextOf(b.email), passwordHash, insertError)
      case Ok(user) => Success(201, user)
      case Err(message) => Forwarded(message)
  }

  /** A registration that passes validation names the account with a valid username. */
  lemma RegisteredNameIsValid(b: Credentials, isEmail: string -> bool, newId: int, passwordHash: string)
    requires RegisterErrors(b, isEmail) == []
    ensures var r := Register(b, isEmail, newId, passwordHash, None);
      r.Success? && 3 <= |r.data.username| <= 20 &&
      forall i :: 0 <= i < |r.data.username| ==> IsUsernameChar(r.data.username[i])
  {
    UsernameErrorsExact(TextOf(b.username));
  }

  function LoginErrors(b: Credentials, isEmail: string -> bool): seq<FieldError>
  {
    (if isEmail(TextOf(b.email)) then [] else [FieldError("email", ValidEmailMessage)])
    + (if NotEmpty(b.password) then [] else [FieldError("password", PasswordRequired)])
  }

  /**
   * login: 400 with the validation errors, else the account if the email
   * belongs to an email or linked account whose hash matches the password;
   * a failed sign-in is passed on.
   */
  function Login(b: Credentials, isEmail: string -> bool, row: Option<Profile>, matches: (string, string) -> bool)
    : (r: Reply<Profile>)
    ensures LoginErrors(b, isEmail) != [] <==> r.Invalid?
    ensures r.Success? ==> (r.status == 200 && row.Some? && r.data == WithoutHash(row.value) &&
      row.value.authMethod in {"email", "linked"})
    ensures LoginErrors(b, isEmail) == [] && row.None? ==> r == Forwarded(InvalidEmailOrPassword)
  {
    var errors := LoginErrors(b, isEmail);
    if errors != [] then Invalid(errors)
    else match AuthenticateEmailUser(row, TextOf(b.password), matches)
      case Ok(user) => Success(200, user)
      case Err(message) => Forwarded(message)
  }

  // ---------------------------------------------------------------------
  // POST /api/auth/link-steam, GET /api/auth/me, GET /api/auth/check-email
  // ---------------------------------------------------------------------

  /**
   * link-steam for the signed-in user: a Steam id is required, a user
   * without an email is refused with 400, and otherwise the account found
   * by the user's email is linked.
   */
  function LinkSteam(steamId: Option<string>, userEmail: Option<string>, found: Lookup,
                     updateError: Option<string>): (r: Reply<Profile>)
    ensures !NotEmpty(steamId) <==> r == Invalid([FieldError("steamId", SteamIdRequired)])
    ensures NotEmpty(steamId) && !Given(userEmail) ==> r == Failure(400, SteamOnlyAccount)
    ensures r.Success? ==> (r.status == 200 && Given(userEmail) && r.data.authMethod == "linked" &&
      r.data.steamId == steamId && found.Ok? && found.value.Some? && r.data.id == found.value.value.id)
    ensures NotEmpty(steamId) && Given(userEmail) && found.Err? ==> r == Forwarded(found.error)
  {
    if !NotEmpty(steamId) then Invalid([FieldError("steamId", SteamIdRequired)])
    else if !Given(userEmail) then Failure(400, SteamOnlyAccount)
    else match LinkSteamToEmailAccount(found, steamId.value, updateError)
      case Ok(user) => Success(200, user)
      case Err(message) => Forwarded(message)
  }

  /** me: the signed-in user's profile, or 404 when it is gone. */
  function Me(user: Result<Option<Profile>, string>): (r: Reply<Profile>)
    ensures user == Ok(None) <==> r == Failure(404, UserNotFound)
    ensures r.Success? ==> user.Ok? && user.value.Some? && r.data == WithoutHash(user.value.value)
  {
    match user
    case Err(message) => Forwarded(message)
    case Ok(None) => Failure(404, UserNotFound)
    case Ok(Some(u)) => Success(200, WithoutHash(u))
  }

  const EmailRequired := "Email is required"
  const EmailCheckFailed := "Server error checking email"

  /**
   * check-email: 400 without an email; otherwise whether an account has it,
   * or 500 when the lookup fails.
   */
  function CheckEmail(email: Option<string>, lookup: Result<Option<Profile>, string>): (r: Reply<bool>)
    ensures !Given(email) <==> r == Failure(400, EmailRequired)
    ensures Given(email) && lookup.Err? ==> r == Failure(500, EmailCheckFailed)
    ensures r.Success? ==> r.status == 200 && lookup.Ok? && (r.data <==> lookup.value.Some?)
  {
    if !Given(email) then Failure(400, EmailRequired)
    else match lookup
      case Err(_) => Failure(500, EmailCheckFailed)
      case Ok(row) => Success(200, row.Some?)
  }

  // ---------------------------------------------------------------------
  // POST /api/auth/dev-login
  // ---------------------------------------------------------------------

  const TestEmail := "test@development.local"
  const TestUsername := "TestUser"
  const NotInProduction := "Development authentication not available in production"
  /** The TypeError of reading `user.id` when the lookup found no account. */
  const NullUserRead := "Cannot read properties of null (reading 'id')"

  /**
   * dev-login as written: the test account is created only when the email
   * lookup throws. A lookup that finds no account returns null without
   * throwing, so the handler then reads a field of null and fails.
   */
  function DevLoginAsWritten(production: bool, lookup: Result<Option<Profile>, string>, newId: int,
                             passwordHash: string, insertError: Option<string>): (r: Reply<Profile>)
    ensures production <==> r == Failure(403, NotInProduction)
    ensures !production && lookup == Ok(None) ==> r == Forwarded(NullUserRead)
  {
    if production then Failure(403, NotInProduction)
    else match lookup
      case Ok(Some(user)) => Success(200, user)
      case Ok(None) => Forwarded(NullUserRead)
      case Err(_) =>
        match CreateUser(newId, TestUsername, TestEmail, passwordHash, insertError)
        case Ok(user) => Success(200, user)
        case Err(message) => Forwarded(message)
  }

  /** On a database without the test account, dev-login as written never signs anyone in. */
  lemma DevLoginAsWrittenFailsWithoutTestAccount(newId: int, passwordHash: string)
    ensures DevLoginAsWritten(false, Ok(None), newId, passwordHash, None) == Forwarded(NullUserRead)
    ensures !DevLoginAsWritten(false, Ok(None), newId, passwordHash, None).Success?
  {
  }

  /** dev-login as intended: the test account is created when the lookup finds none, or when it fails. */
  function DevLogin(production: bool, lookup: Result<Option<Profile>, string>, newId: int,
                    passwordHash: string, insertError: Option<string>): (r: Reply<Profile>)
    ensures production <==> r == Failure(403, NotInProduction)
    ensures r.Success? ==> r.status == 200
  {
    if production then Failure(403, NotInProduction)
    else if lookup.Ok? && lookup.value.Some? then Success(200, lookup.value.value)
    else match CreateUser(newId, TestUsername, TestEmail, passwordHash, insertError)
      case Ok(user) => Success(200, user)
      case Err(message) => Forwarded(message)
  }

  /**
   * Outside production the corrected dev-login always signs in when the
   * account exists or can be created: the existing test account as found,
   * else a new email account named TestUser with the test email; it agrees
   * with the code as written whenever the lookup finds the account.
   */
  lemma DevLoginSignsIn(lookup: Result<Option<Profile>, string>, newId: int, passwordHash: string, existing: Profile)
    ensures lookup.Err? || lookup == Ok(None) ==>
      var r := DevLogin(false, lookup, newId, passwordHash, None);
      r.Success? && r.data.username == TestUsername && r.data.email == Some(TestEmail) &&
      r.data.authMethod == "email" && r.data.passwordHash.None?
    ensures DevLogin(false, Ok(Some(existing)), newId, passwordHash, None) == Success(200, existing)
    ensures DevLogin(false, Ok(Some(existing)), newId, passwordHash, None) ==
            DevLoginAsWritten(false, Ok(Some(existing)), newId, passwordHash, None)
  {
  }
}
