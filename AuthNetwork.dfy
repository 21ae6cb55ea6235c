// The client's request queue (AuthNetworkManager): requests are queued by
// the game states, Update hands the front one to a worker, and the worker's
// result is turned into an HttpResponse or an AuthResponse for the callback
// the request carries. The worker is modelled as a pool of in-flight
// requests; Complete delivers any one of them, in any order.
module AuthNetwork {
  import opened Common
  import opened Json

  const DefaultBaseUrl: string := "http://localhost:3001"
  const ParseFailure: string := "Failed to parse server response"
  const EmailParseFailure: string := "Failed to parse response"

  // ---------------------------------------------------------------------
  // Requests
  // ---------------------------------------------------------------------

  /** A request body: a JSON document (sent as its dump()) or literal text. */
  datatype Body = Doc(doc: JsonValue) | Text(text: string)

  /** What the client does with the answer to a checked e-mail address. */
  datatype EmailCheckPurpose = ForEmailRegistration | ForLinkedRegistration

  /**
   * The closure a request carries, named after the code that created it.
   * EmailExists wraps the closure CheckEmailExists builds around the
   * caller's (exists, error) callback.
   */
  datatype Callback =
    | SessionStarted
    | ProgressSaved
    | SessionEnded
    | DevLogin
    | SteamLogin
    | SteamCreated
    | EmailExists(purpose: EmailCheckPurpose)
    | EmailRegistered
    | EmailLoggedIn
    | LinkedCreated
    | Ignored

  /** The closures that take an AuthResponse; the others take an HttpResponse. */
  predicate IsAuthCallback(c: Callback)
  {
    c.SteamLogin? || c.SteamCreated? || c.EmailRegistered? || c.EmailLoggedIn? || c.LinkedCreated?
  }

  /** The server endpoints the client calls; the e-mail check carries its query. */
  datatype Endpoint =
    | ChooseMethod
    | Login
    | SteamAuth
    | CheckEmail(email: string)
    | SessionStart
    | ProgressSave
    | SaveProgressPath
    | ProgressFetch
    | SessionEnd
    | DevLoginPath

  /** The path of an endpoint, appended to the base URL; the address is not URL-encoded. */
  function Path(e: Endpoint): string
  {
    match e
    case ChooseMethod => "/api/auth/choose-method"
    case Login => "/api/auth/login"
    case SteamAuth => "/api/auth/steam"
    case CheckEmail(email) => "/api/auth/check-email?email=" + email
    case SessionStart => "/api/game/session/start"
    case ProgressSave => "/api/game/progress/save"
    case SaveProgressPath => "/api/game/save-progress"
    case ProgressFetch => "/api/game/progress"
    case SessionEnd => "/api/game/session/end"
    case DevLoginPath => "/api/auth/dev-login"
  }

  datatype Verb = Get | Post

  function VerbName(v: Verb): (name: string)
    ensures name == "GET" || name == "POST"
  {
    match v
    case Get => "GET"
    case Post => "POST"
  }

  /**
   * What a request carries, before it is written as a body: the game's
   * requests keep the values they were built from, the authentication
   * requests the JSON document CreateAuthJson built.
   */
  datatype Payload =
    | NoBody
    | EmptyObject
    | AuthJson(doc: JsonValue)
    | StartPayload
    | ProgressPayload(sessionId: string, currentScore: int, leaderboardPoints: int, skillPoints: int,
                      survivalTime: real, livesRemaining: int)
    | SavePayload(leaderboardPoints: int, skillPoints: int, currentScore: int, survivalTime: real)
    | EndPayload(sessionId: string, finalScore: int, leaderboardPoints: int, skillPoints: int,
                 survivalTime: real, kills: int, damageDealt: int, damageTaken: int, waveReached: int)

  /** The body a payload is sent as. */
  function Encode(p: Payload): (b: Body)
    ensures p.NoBody? <==> b == Text("")
  {
    match p
    case NoBody => Text("")
    case EmptyObject => Text("{}")
    case AuthJson(doc) => Doc(doc)
    case StartPayload => Doc(SessionStartBody())
    case ProgressPayload(id, sc, lp, sp, t, lives) => Doc(ProgressSaveBody(id, sc, lp, sp, t, lives))
    case SavePayload(lp, sp, sc, t) => Doc(SaveProgressBody(lp, sp, sc, t))
    case EndPayload(id, sc, lp, sp, t, k, dd, dt, w) => Doc(SessionEndBody(id, sc, lp, sp, t, k, dd, dt, w))
  }

  datatype Request = Request(endpoint: Endpoint, verb: Verb, payload: Payload, isAuthRequest: bool, callback: Callback)

  /**
   * A request handed to a worker, with the base URL and headers it was
   * sent with; it went to baseUrl + Path(request.endpoint).
   */
  datatype Dispatched = Dispatched(request: Request, baseUrl: string, headers: seq<string>)

  /** The requests handed to workers one by one, in queue order, with the same base URL and headers. */
  function DispatchAll(requests: seq<Request>, baseUrl: string, headers: seq<string>): (r: seq<Dispatched>)
    ensures |r| == |requests|
    ensures forall i :: 0 <= i < |requests| ==> r[i] == Dispatched(requests[i], baseUrl, headers)
  {
    if requests == [] then []
    else DispatchAll(requests[..|requests| - 1], baseUrl, headers) + [Dispatched(requests[|requests| - 1], baseUrl, headers)]
  }

  const ContentTypeHeader: string := "Content-Type: application/json"

  function Headers(authToken: string): (h: seq<string>)
    ensures |h| >= 1 && h[0] == ContentTypeHeader
    ensures |h| == 2 <==> authToken != ""
    ensures authToken != "" ==> h[1] == "Authorization: Bearer " + authToken
  {
    [ContentTypeHeader] + (if authToken != "" then ["Authorization: Bearer " + authToken] else [])
  }

  // ---------------------------------------------------------------------
  // Responses
  // ---------------------------------------------------------------------

  datatype HttpResponse = HttpResponse(success: bool, statusCode: int, data: string, error: string)

  /**
   * The client's AuthResponse. The integer members are None until the code
   * assigns them (the C++ struct leaves them indeterminate).
   */
  datatype AuthResponse = AuthResponse(
    success: bool, error: string, token: string,
    userId: string, username: string, email: string, steamId: string, authMethod: string,
    level: Option<int>, experience: Option<int>, skillPoints: Option<int>, coins: Option<int>)

  const BlankAuthResponse: AuthResponse :=
    AuthResponse(false, "", "", "", "", "", "", "", None, None, None, None)

  /** What the worker observed: an HTTP exchange, or a transport failure with its message. */
  datatype Transport = Performed(httpCode: int, data: string) | TransportError(message: string)

  datatype Outcome = HttpOutcome(http: HttpResponse) | AuthOutcome(auth: AuthResponse)

  predicate Is2xx(code: int) { 200 <= code < 300 }

  function StatusError(code: int): string { "HTTP " + IntToString(code) }

  /** Reads the status code back out of a "HTTP <code>" error text. */
  function StatusCodeOf(error: string): Option<int>
  {
    if |error| >= 5 && error[..5] == "HTTP " then ParseDecimal(error[5..]) else None
  }

  lemma StatusErrorRoundTrip(code: int)
    ensures StatusCodeOf(StatusError(code)) == Some(code)
  {
    var e := StatusError(code);
    assert e[..5] == "HTTP " && e[5..] == IntToString(code);
    IntToStringRoundTrip(code);
  }

  /** The HttpResponse a plain request's callback receives. */
  function ClassifyHttp(t: Transport): (r: HttpResponse)
    ensures r.success <==> t.Performed? && Is2xx(t.httpCode)
    ensures t.Performed? ==> r.statusCode == t.httpCode && r.data == t.data
    ensures t.Performed? && !r.success ==> StatusCodeOf(r.error) == Some(t.httpCode)
    ensures r.success ==> r.error == ""
    ensures t.TransportError? ==> r.error == t.message && r.data == ""
  {
    match t
    case Performed(code, data) =>
      if Is2xx(code) then HttpResponse(true, code, data, "")
      else
        StatusErrorRoundTrip(code);
        HttpResponse(false, code, data, StatusError(code))
    case TransportError(msg) => HttpResponse(false, 0, "", msg)
  }

  // ---------------------------------------------------------------------
  // ParseAuthResponse: successive assignments, an exception keeps what was
  // assigned before it and replaces the error text.
  // ---------------------------------------------------------------------

  /** `obj.contains(key) ? obj[key].get<std::string>() : ""`; None is the type error. */
  function TextMember(obj: JsonValue, key: string): (r: Option<string>)
    ensures !Has(obj, key) ==> r == Some("")
    ensures Has(obj, key) ==> (r.Some? <==> Member(obj, key).JString?)
  {
    if Has(obj, key) then AsString(Member(obj, key)) else Some("")
  }

  /** `obj.contains(key) ? obj[key].get<int>() : fallback`; None is the type error. */
  function CountMember(obj: JsonValue, key: string, fallback: int): (r: Option<int>)
    ensures !Has(obj, key) ==> r == Some(fallback)
    ensures Has(obj, key) ==> r == AsInt(Member(obj, key))
  {
    if Has(obj, key) then AsInt(Member(obj, key)) else Some(fallback)
  }

  function Failed(r: AuthResponse): AuthResponse { r.(error := ParseFailure) }

  // The user block reads nine members in this order: five texts, then four
  // counts with their defaults.

  const UserMemberCount: nat := 9
  const UserKeys: seq<string> :=
    ["id", "username", "email", "steam_id", "auth_method", "level", "experience", "skill_points", "coins"]

  /** The value of one user field: a text, or a count that may still be unset. */
  datatype UserValue = TextValue(text: string) | CountValue(count: Option<int>)

  /** The default of the count read at position i (level 1, experience 0, skill points 0, coins 50). */
  function CountDefault(i: nat): int
    requires 5 <= i < UserMemberCount
  {
    if i == 5 then 1 else if i == 8 then 50 else 0
  }

  /** The i-th read of the user block: its member or default, None when the getter throws. */
  function ReadMemberAt(user: JsonValue, i: nat): (v: Option<UserValue>)
    requires i < UserMemberCount
    ensures v.Some? && i < 5 ==> v.value.TextValue?
    ensures v.Some? && 5 <= i ==> v.value.CountValue? && v.value.count.Some?
    ensures v.None? <==> Has(user, UserKeys[i]) && if i < 5 then !Member(user, UserKeys[i]).JString?
                                                   else AsInt(Member(user, UserKeys[i])).None?
    ensures !Has(user, UserKeys[i]) ==> v == Some(if i < 5 then TextValue("") else CountValue(Some(CountDefault(i))))
    ensures Has(user, UserKeys[i]) && v.Some? ==>
              v.value == if i < 5 then TextValue(Member(user, UserKeys[i]).s) else CountValue(AsInt(Member(user, UserKeys[i])))
  {
    if i < 5 then
      match TextMember(user, UserKeys[i])
      case None => None
      case Some(t) => Some(TextValue(t))
    else
      match CountMember(user, UserKeys[i], CountDefault(i))
      case None => None
      case Some(n) => Some(CountValue(Some(n)))
  }

  /** The user fields a response holds, in reading order. */
  function UserFields(r: AuthResponse): (fs: seq<UserValue>)
    ensures |fs| == UserMemberCount
  {
    [TextValue(r.userId), TextValue(r.username), TextValue(r.email), TextValue(r.steamId), TextValue(r.authMethod),
     CountValue(r.level), CountValue(r.experience), CountValue(r.skillPoints), CountValue(r.coins)]
  }

  /** The assignment of the i-th read's value to its field. */
  function WithUserField(r: AuthResponse, i: nat, v: UserValue): (r': AuthResponse)
    requires i < UserMemberCount
    requires i < 5 <==> v.TextValue?
    ensures UserFields(r') == UserFields(r)[i := v]
    ensures r'.success == r.success && r'.error == r.error && r'.token == r.token
  {
    match i
    case 0 => r.(userId := v.text)
    case 1 => r.(username := v.text)
    case 2 => r.(email := v.text)
    case 3 => r.(steamId := v.text)
    case 4 => r.(authMethod := v.text)
    case 5 => r.(level := v.count)
    case 6 => r.(experience := v.count)
    case 7 => r.(skillPoints := v.count)
    case _ => r.(coins := v.count)
  }

  /** The nine getters' outcomes for a user block, in reading order. */
  function UserReads(user: JsonValue): (outcomes: seq<Option<UserValue>>)
    ensures |outcomes| == UserMemberCount
    ensures forall i | 0 <= i < UserMemberCount :: outcomes[i] == ReadMemberAt(user, i)
  {
    seq(UserMemberCount, i requires 0 <= i < UserMemberCount => ReadMemberAt(user, i))
  }

  /** Outcomes whose values fit their fields: texts first, then counts. */
  predicate WellKinded(outcomes: seq<Option<UserValue>>)
  {
    |outcomes| == UserMemberCount && forall i | 0 <= i < UserMemberCount :: outcomes[i].Some? ==> (i < 5 <==> outcomes[i].value.TextValue?)
  }

  /** The outcomes from position i on: a throwing getter stops them and sets the parse-failure error. */
  function ApplyReads(outcomes: seq<Option<UserValue>>, r: AuthResponse, i: nat): (r': AuthResponse)
    requires WellKinded(outcomes) && i <= UserMemberCount
    ensures r'.success == r.success && r'.token == r.token
    decreases UserMemberCount - i
  {
    if i == UserMemberCount then r
    else if outcomes[i].None? then Failed(r)
    else ApplyReads(outcomes, WithUserField(r, i, outcomes[i].value), i + 1)
  }

  /** The `if (root.contains("user"))` block of ParseAuthResponse; it never touches success or token. */
  function ReadUser(user: JsonValue, r: AuthResponse): (r': AuthResponse)
    ensures r'.success == r.success && r'.token == r.token
  {
    ApplyReads(UserReads(user), r, 0)
  }

  /** The first position from i on whose read fails; UserMemberCount when none does. */
  function FirstFailedRead(outcomes: seq<Option<UserValue>>, i: nat): (f: nat)
    requires |outcomes| == UserMemberCount && i <= UserMemberCount
    ensures i <= f <= UserMemberCount
    ensures forall j | i <= j < f :: outcomes[j].Some?
    ensures f < UserMemberCount ==> outcomes[f].None?
    decreases UserMemberCount - i
  {
    if i == UserMemberCount then i
    else if outcomes[i].None? then i
    else FirstFailedRead(outcomes, i + 1)
  }

  /**
   * The position, in reading order, of the first user member whose type its
   * getter rejects; UserMemberCount when every member outcomes.
   */
  function FirstMistypedUserMember(user: JsonValue): (f: nat)
    ensures f <= UserMemberCount
    ensures forall j | 0 <= j < f :: ReadMemberAt(user, j).Some?
    ensures f < UserMemberCount ==> ReadMemberAt(user, f).None?
  {
    FirstFailedRead(UserReads(user), 0)
  }

  lemma {:induction false} ApplyReadsInOrder(outcomes: seq<Option<UserValue>>, r: AuthResponse, i: nat)
    requires WellKinded(outcomes) && i <= UserMemberCount
    ensures forall j | 0 <= j < UserMemberCount ::
              UserFields(ApplyReads(outcomes, r, i))[j]
              == if i <= j < FirstFailedRead(outcomes, i) then outcomes[j].value else UserFields(r)[j]
    ensures ApplyReads(outcomes, r, i).error == if FirstFailedRead(outcomes, i) < UserMemberCount then ParseFailure else r.error
    decreases UserMemberCount - i
  {
    if i < UserMemberCount {
      if outcomes[i].None? {
        assert UserFields(Failed(r)) == UserFields(r);
      } else {
        ApplyReadsInOrder(outcomes, WithUserField(r, i, outcomes[i].value), i + 1);
      }
    }
  }

  /**
   * The user block is read member by member: the fields before the first
   * mistyped member take their member or its default, that one and the later
   * ones keep what the response held, and a mistyped member sets the
   * parse-failure error.
   */
  lemma ReadUserInOrder(user: JsonValue, r: AuthResponse)
    ensures forall j | 0 <= j < UserMemberCount ::
              UserFields(ReadUser(user, r))[j]
              == if j < FirstMistypedUserMember(user) then ReadMemberAt(user, j).value else UserFields(r)[j]
    ensures ReadUser(user, r).error == if FirstMistypedUserMember(user) < UserMemberCount then ParseFailure else r.error
  {
    ApplyReadsInOrder(UserReads(user), r, 0);
  }

  /** A member that is absent or a string: reading it as text does not throw. */
  predicate TextOk(obj: JsonValue, key: string)
  {
    !Has(obj, key) || Member(obj, key).JString?
  }

  /** The text a readable member holds, or "" when it is absent. */
  function TextOrEmpty(obj: JsonValue, key: string): string
    requires TextOk(obj, key)
  {
    if Has(obj, key) then Member(obj, key).s else ""
  }

  /**
   * The position of the first member of the whole document whose getter
   * throws: success, error and token, then the user block's nine members;
   * 12 when the document reads without an exception.
   */
  function FirstMistypedMember(root: JsonValue): (f: nat)
    ensures f <= 12
  {
    if Has(root, "success") && !Member(root, "success").JBool? then 0
    else if !TextOk(root, "error") then 1
    else if !TextOk(root, "token") then 2
    else if Has(root, "user") then 3 + FirstMistypedUserMember(Member(root, "user"))
    else 12
  }

  /**
   * The body of ParseAuthResponse's try block. Success holds exactly when the
   * success member is true; error and token take their member or "" unless
   * a getter threw, and any throw leaves the parse-failure error; the user
   * fields before the first mistyped user member are their members or
   * defaults, and the others stay blank, as they all do without a user
   * member or after a throw at the top level.
   */
  function ReadAuthDocument(root: JsonValue): (r: AuthResponse)
    ensures r.success <==> Has(root, "success") && Member(root, "success") == JBool(true)
    ensures r.error == if FirstMistypedMember(root) < 12 then ParseFailure else TextOrEmpty(root, "error")
    ensures r.token == if FirstMistypedMember(root) > 2 then TextOrEmpty(root, "token") else ""
    ensures FirstMistypedMember(root) <= 2 || !Has(root, "user")
            ==> UserFields(r) == UserFields(BlankAuthResponse)
    ensures FirstMistypedMember(root) > 2 && Has(root, "user")
            ==> forall j | 0 <= j < UserMemberCount ::
                  UserFields(r)[j] == if j < FirstMistypedUserMember(Member(root, "user"))
                                      then ReadMemberAt(Member(root, "user"), j).value
                                      else UserFields(BlankAuthResponse)[j]
  {
    var r := BlankAuthResponse;
    var ok := if Has(root, "success") then AsBool(Member(root, "success")) else Some(false);
    if ok.None? then Failed(r) else
    var r := r.(success := ok.value);
    var error := TextMember(root, "error");
    if error.None? then Failed(r) else
    var r := r.(error := error.value);
    var token := TextMember(root, "token");
    if token.None? then Failed(r) else
    var r := r.(token := token.value);
    if Has(root, "user") then
      assert UserFields(r) == UserFields(BlankAuthResponse);
      ReadUserInOrder(Member(root, "user"), r);
      ReadUser(Member(root, "user"), r)
    else r
  }

  /** AuthNetworkManager::ParseAuthResponse; parse stands for json::parse (None: parse error). */
  function ParseAuthResponse(parse: string -> Option<JsonValue>, data: string): (r: AuthResponse)
    ensures parse(data).None? ==> r == BlankAuthResponse.(error := ParseFailure)
    ensures parse(data).Some? ==>
              (r.success <==> Has(parse(data).value, "success") && Member(parse(data).value, "success") == JBool(true))
    ensures parse(data).Some? ==>
              r.error == if FirstMistypedMember(parse(data).value) < 12 then ParseFailure
                         else TextOrEmpty(parse(data).value, "error")
    ensures parse(data).Some? ==>
              r.token == if FirstMistypedMember(parse(data).value) > 2 then TextOrEmpty(parse(data).value, "token") else ""
    ensures parse(data).Some? ==> UserFields(r) == UserFields(ReadAuthDocument(parse(data).value))
  {
    match parse(data)
    case None => Failed(BlankAuthResponse)
    case Some(root) => ReadAuthDocument(root)
  }

  /**
   * A document in which every member has the type its getter expects is
   * read without an exception: the error and the token are their members or
   * "", and every user field is its member or its default.
   */
  lemma WellTypedDocumentFields(root: JsonValue)
    requires FirstMistypedMember(root) == 12
    ensures ReadAuthDocument(root).error == TextOrEmpty(root, "error")
    ensures ReadAuthDocument(root).token == TextOrEmpty(root, "token")
    ensures Has(root, "user") ==> forall j | 0 <= j < UserMemberCount ::
              UserFields(ReadAuthDocument(root))[j] == ReadMemberAt(Member(root, "user"), j).value
  {
  }

  /**
   * A mistyped member inside the user block: the fields read before it keep
   * their values, the rest stay blank, and the error is the parse failure
   * whatever the document's own error member says.
   */
  lemma MistypedUserMemberStopsTheRead(root: JsonValue)
    requires Has(root, "user") && 3 <= FirstMistypedMember(root) < 12
    ensures ReadAuthDocument(root).error == ParseFailure
    ensures ReadAuthDocument(root).token == TextOrEmpty(root, "token")
    ensures forall j | 0 <= j < UserMemberCount ::
              UserFields(ReadAuthDocument(root))[j]
              == if j + 3 < FirstMistypedMember(root) then ReadMemberAt(Member(root, "user"), j).value
                 else UserFields(BlankAuthResponse)[j]
  {
  }

  /** A document whose members all have the expected types is read without error. */
  lemma ReadWellTypedDocument(root: JsonValue, ok: bool, token: string)
    requires root == JObject(map["success" := JBool(ok), "token" := JString(token)])
    ensures ReadAuthDocument(root).success == ok
    ensures ReadAuthDocument(root).token == token
    ensures ReadAuthDocument(root).error == ""
    ensures ReadAuthDocument(root).level.None?
  {
    assert !Has(root, "error") && !Has(root, "user");
  }

  /** Missing user members take the defaults level 1, experience 0, skill points 0 and 50 coins. */
  lemma UserDefaults(root: JsonValue)
    requires root == JObject(map["user" := JObject(map[])])
    ensures ReadAuthDocument(root).level == Some(1)
    ensures ReadAuthDocument(root).experience == Some(0)
    ensures ReadAuthDocument(root).skillPoints == Some(0)
    ensures ReadAuthDocument(root).coins == Some(50)
    ensures ReadAuthDocument(root).userId == "" && ReadAuthDocument(root).error == ""
  {
    var user := JObject(map[]);
    forall j | 0 <= j < UserMemberCount
      ensures ReadMemberAt(user, j) == if j < 5 then Some(TextValue("")) else Some(CountValue(Some(CountDefault(j))))
    {
      assert !Has(user, UserKeys[j]);
    }
    assert !Has(root, "success") && !Has(root, "error") && !Has(root, "token");
    assert FirstMistypedMember(root) == 12;
    var fields := UserFields(ReadAuthDocument(root));
    assert fields[0] == TextValue("") && fields[5] == CountValue(Some(1)) && fields[6] == CountValue(Some(0));
    assert fields[7] == CountValue(Some(0)) && fields[8] == CountValue(Some(50));
  }

  /**
   * The token is read only at the top level: a document that nests it
   * under "data" (as the server's authentication routes answer) yields an
   * empty token and no user fields.
   */
  lemma NestedTokenIsNotRead(root: JsonValue, token: string, user: JsonValue)
    requires root == JObject(map["success" := JBool(true), "data" := JObject(map["user" := user, "token" := JString(token)])])
    ensures ReadAuthDocument(root).success
    ensures ReadAuthDocument(root).token == ""
    ensures ReadAuthDocument(root).userId == "" && ReadAuthDocument(root).level.None?
  {
    assert !Has(root, "error") && !Has(root, "token") && !Has(root, "user");
  }

  /** The AuthResponse an authentication request's callback receives. */
  function ClassifyAuth(parse: string -> Option<JsonValue>, t: Transport): (r: AuthResponse)
    ensures r.success <==> t.Performed? && Is2xx(t.httpCode)
    ensures t.Performed? && !r.success ==> r.error != ""
    ensures t.Performed? && !r.success && ParseAuthResponse(parse, t.data).error == ""
            ==> StatusCodeOf(r.error) == Some(t.httpCode)
    ensures t.Performed? && ParseAuthResponse(parse, t.data).error != ""
            ==> r.error == ParseAuthResponse(parse, t.data).error
    ensures t.Performed? ==> r.token == ParseAuthResponse(parse, t.data).token
    ensures t.TransportError? ==> r == BlankAuthResponse.(error := t.message)
  {
    match t
    case Performed(code, data) =>
      var parsed := ParseAuthResponse(parse, data);
      var r := parsed.(success := Is2xx(code));
      if !r.success && r.error == "" then
        StatusErrorRoundTrip(code);
        r.(error := StatusError(code))
      else r
    case TransportError(msg) => BlankAuthResponse.(error := msg)
  }

  /** A 2xx answer counts as a success even when the body says otherwise or cannot be parsed. */
  lemma StatusDecidesSuccess(parse: string -> Option<JsonValue>, data: string)
    requires parse(data).None?
    ensures ClassifyAuth(parse, Performed(200, data)).success
    ensures ClassifyAuth(parse, Performed(200, data)).error == ParseFailure
    ensures ClassifyAuth(parse, Performed(200, data)).token == ""
  {
  }

  function Respond(parse: string -> Option<JsonValue>, isAuthRequest: bool, t: Transport): (o: Outcome)
    ensures o.AuthOutcome? <==> isAuthRequest
  {
    if isAuthRequest then AuthOutcome(ClassifyAuth(parse, t)) else HttpOutcome(ClassifyHttp(t))
  }

  /** The (exists, error) pair CheckEmailExists passes on. */
  function EmailCheckResult(parse: string -> Option<JsonValue>, r: HttpResponse): (out: (bool, string))
    ensures out.0 ==> r.success && parse(r.data).Some? && Has(parse(r.data).value, "exists")
                      && Member(parse(r.data).value, "exists") == JBool(true)
    ensures out.0 ==> out.1 == ""
    ensures !r.success ==> out == (false, r.error)
    ensures r.success && parse(r.data).None? ==> out == (false, EmailParseFailure)
  {
    if !r.success then (false, r.error)
    else match parse(r.data)
      case None => (false, EmailParseFailure)
      case Some(root) =>
        if !Has(root, "exists") then (false, "")
        else match AsBool(Member(root, "exists"))
          case None => (false, EmailParseFailure)
          case Some(b) => (b, "")
  }

  // ---------------------------------------------------------------------
  // Request bodies
  // ---------------------------------------------------------------------

  /** The steamData text the client builds by concatenation (no escaping). */
  function SteamDataText(username: string, avatar: string): string
  {
    "{\"username\":\"" + username + "\",\"avatar\":\"" + avatar + "\"}"
  }

  /** AuthNetworkManager::CreateAuthJson */
  function CreateAuthJson(parse: string -> Option<JsonValue>, authMethod: string, username: string,
                          email: string, password: string, steamId: string, steamData: string): (r: JsonValue)
    ensures r.JObject?
    ensures authMethod == "login" ==>
      r.fields.Keys == {"email", "password"} && r.fields["email"] == JString(email) && r.fields["password"] == JString(password)
    ensures authMethod != "login" ==>
      && "authMethod" in r.fields && r.fields["authMethod"] == JString(authMethod)
      && ("username" in r.fields <==> username != "")
      && ("email" in r.fields <==> email != "")
      && ("password" in r.fields <==> password != "")
      && ("steamId" in r.fields <==> steamId != "")
      && ("steamData" in r.fields <==> steamData != "" && parse(steamData).Some?)
      && r.fields.Keys <= {"authMethod", "username", "email", "password", "steamId", "steamData"}
    ensures authMethod != "login" && "steamData" in r.fields ==> r.fields["steamData"] == parse(steamData).value
  {
    if authMethod == "login" then
      JObject(map["email" := JString(email), "password" := JString(password)])
    else
      var m := map["authMethod" := JString(authMethod)];
      var m := if username != "" then m["username" := JString(username)] else m;
      var m := if email != "" then m["email" := JString(email)] else m;
      var m := if password != "" then m["password" := JString(password)] else m;
      var m := if steamId != "" then m["steamId" := JString(steamId)] else m;
      var m := if steamData != "" && parse(steamData).Some? then m["steamData" := parse(steamData).value] else m;
      JObject(m)
  }

  /** The body of POST /api/game/session/start. */
  function SessionStartBody(): JsonValue
  {
    Object([("gameMode", JString("normal"))])
  }

  /** The body of POST /api/game/progress/save. */
  function ProgressSaveBody(sessionId: string, currentScore: int, leaderboardPoints: int, skillPoints: int,
                            survivalTime: real, livesRemaining: int): JsonValue
  {
    Object([
      ("sessionId", JString(sessionId)),
      ("currentScore", JInt(currentScore)),
      ("leaderboardPoints", JInt(leaderboardPoints)),
      ("skillPoints", JInt(skillPoints)),
      ("survivalTime", Number(survivalTime)),
      ("livesRemaining", JInt(livesRemaining))])
  }

  /** The body of POST /api/game/save-progress. */
  function SaveProgressBody(leaderboardPoints: int, skillPoints: int, currentScore: int, survivalTime: real): JsonValue
  {
    Object([
      ("leaderboard_points", JInt(leaderboardPoints)),
      ("skill_points", JInt(skillPoints)),
      ("current_score", JInt(currentScore)),
      ("survival_time", Number(survivalTime))])
  }

  /** The body of POST /api/game/session/end. */
  function SessionEndBody(sessionId: string, finalScore: int, leaderboardPoints: int, skillPoints: int,
                          survivalTime: real, kills: int, damageDealt: int, damageTaken: int,
                          waveReached: int): JsonValue
  {
    Object([
      ("sessionId", JString(sessionId)),
      ("finalScore", JInt(finalScore)),
      ("leaderboardPointsEarned", JInt(leaderboardPoints)),
      ("skillPointsEarned", JInt(skillPoints)),
      ("survivalTime", Number(survivalTime)),
      ("kills", JInt(kills)),
      ("damageDealt", JInt(damageDealt)),
      ("damageTaken", JInt(damageTaken)),
      ("waveReached", JInt(waveReached)),
      ("endReason", JString("player_death"))])
  }

  // ---------------------------------------------------------------------
  // The manager
  // ---------------------------------------------------------------------

  class AuthNetworkManager {
    var baseUrl: string
    var authToken: string
    /** Requests not yet handed to a worker, front first. */
    var queue: seq<Request>
    /** Requests handed to a worker whose callback has not run yet. */
    var inFlight: seq<Dispatched>
    /** json::parse: None when the text is not valid JSON. */
    const parse: string -> Option<JsonValue>

    constructor (parse: string -> Option<JsonValue>)
      ensures baseUrl == DefaultBaseUrl && authToken == ""
      ensures queue == [] && inFlight == []
      ensures this.parse == parse
    {
      baseUrl := DefaultBaseUrl;
      authToken := "";
      queue := [];
      inFlight := [];
      this.parse := parse;
    }

    method SetBaseUrl(url: string)
      modifies this`baseUrl
      ensures baseUrl == url
    {
      baseUrl := url;
    }

    method SetAuthToken(token: string)
      modifies this`authToken
      ensures authToken == token
    {
      authToken := token;
    }

    method MakeAuthRequest(endpoint: Endpoint, payload: Payload, callback: Callback, verb: Verb := Post)
      modifies this`queue
      ensures queue == old(queue) + [Request(endpoint, verb, payload, true, callback)]
    {
      queue := queue + [Request(endpoint, verb, payload, true, callback)];
    }

    method MakeHttpRequest(endpoint: Endpoint, verb: Verb, payload: Payload, callback: Callback)
      modifies this`queue
      ensures queue == old(queue) + [Request(endpoint, verb, payload, false, callback)]
    {
      queue := queue + [Request(endpoint, verb, payload, false, callback)];
    }

    method RegisterEmailUser(username: string, email: string, password: string, callback: Callback)
      modifies this`queue
      ensures queue == old(queue) + [Request(ChooseMethod, Post,
        AuthJson(CreateAuthJson(parse, "email", username, email, password, "", "")), true, callback)]
    {
      MakeAuthRequest(ChooseMethod, AuthJson(CreateAuthJson(parse, "email", username, email, password, "", "")), callback);
    }

    method LoginEmailUser(email: string, password: string, callback: Callback)
      modifies this`queue
      ensures queue == old(queue) + [Request(Login, Post,
        AuthJson(CreateAuthJson(parse, "login", "", email, password, "", "")), true, callback)]
    {
      MakeAuthRequest(Login, AuthJson(CreateAuthJson(parse, "login", "", email, password, "", "")), callback);
    }

    method CreateSteamUser(steamId: string, username: string, avatar: string, callback: Callback)
      modifies this`queue
      ensures queue == old(queue) + [Request(ChooseMethod, Post,
        AuthJson(CreateAuthJson(parse, "steam", "", "", "", steamId, SteamDataText(username, avatar))), true, callback)]
    {
      var body := CreateAuthJson(parse, "steam", "", "", "", steamId, SteamDataText(username, avatar));
      MakeAuthRequest(ChooseMethod, AuthJson(body), callback);
    }

    method LoginSteamUser(steamId: string, callback: Callback)
      modifies this`queue
      ensures queue == old(queue) + [Request(SteamAuth, Post,
        AuthJson(CreateAuthJson(parse, "steam", "", "", "", steamId, "")), true, callback)]
    {
      MakeAuthRequest(SteamAuth, AuthJson(CreateAuthJson(parse, "steam", "", "", "", steamId, "")), callback);
    }

    method CreateLinkedUser(username: string, email: string, password: string, steamId: string,
                            avatar: string, callback: Callback)
      modifies this`queue
      ensures queue == old(queue) + [Request(ChooseMethod, Post,
        AuthJson(CreateAuthJson(parse, "linked", username, email, password, steamId, SteamDataText(username, avatar))), true, callback)]
    {
      var body := CreateAuthJson(parse, "linked", username, email, password, steamId, SteamDataText(username, avatar));
      MakeAuthRequest(ChooseMethod, AuthJson(body), callback);
    }

    method CheckEmailExists(email: string, purpose: EmailCheckPurpose)
      modifies this`queue
      ensures queue == old(queue) + [Request(CheckEmail(email), Get, NoBody, false, EmailExists(purpose))]
    {
      MakeHttpRequest(CheckEmail(email), Get, NoBody, EmailExists(purpose));
    }

    method StartGameSession(callback: Callback)
      modifies this`queue
      ensures queue == old(queue) + [Request(SessionStart, Post, StartPayload, false, callback)]
    {
      MakeHttpRequest(SessionStart, Post, StartPayload, callback);
    }

    method SaveGameProgress(sessionId: string, currentScore: int, leaderboardPoints: int, skillPoints: int,
                            survivalTime: real, livesRemaining: int, callback: Callback)
      modifies this`queue
      ensures queue == old(queue) + [Request(ProgressSave, Post,
        ProgressPayload(sessionId, currentScore, leaderboardPoints, skillPoints, survivalTime, livesRemaining), false, callback)]
    {
      var payload := ProgressPayload(sessionId, currentScore, leaderboardPoints, skillPoints, survivalTime, livesRemaining);
      MakeHttpRequest(ProgressSave, Post, payload, callback);
    }

    method SaveProgress(leaderboardPoints: int, skillPoints: int, currentScore: int, survivalTime: real, callback: Callback)
      modifies this`queue
      ensures queue == old(queue) + [Request(SaveProgressPath, Post,
        SavePayload(leaderboardPoints, skillPoints, currentScore, survivalTime), false, callback)]
    {
      MakeHttpRequest(SaveProgressPath, Post, SavePayload(leaderboardPoints, skillPoints, currentScore, survivalTime), callback);
    }

    method GetProgress(callback: Callback)
      modifies this`queue
      ensures queue == old(queue) + [Request(ProgressFetch, Get, NoBody, false, callback)]
    {
      MakeHttpRequest(ProgressFetch, Get, NoBody, callback);
    }

    method EndGameSession(sessionId: string, finalScore: int, leaderboardPoints: int, skillPoints: int,
                          survivalTime: real, kills: int, damageDealt: int, damageTaken: int,
                          waveReached: int, callback: Callback)
      modifies this`queue
      ensures queue == old(queue) + [Request(SessionEnd, Post,
        EndPayload(sessionId, finalScore, leaderboardPoints, skillPoints, survivalTime,
                   kills, damageDealt, damageTaken, waveReached), false, callback)]
    {
      var payload := EndPayload(sessionId, finalScore, leaderboardPoints, skillPoints, survivalTime,
                                kills, damageDealt, damageTaken, waveReached);
      MakeHttpRequest(SessionEnd, Post, payload, callback);
    }

    /**
     * AuthNetworkManager::Update: hands the front request to a worker.
     * handleObtained is whether curl_easy_init succeeded; without a handle
     * the request is dropped and its callback never runs.
     */
    method Update(handleObtained: bool)
      modifies this`queue, this`inFlight
      ensures old(queue) == [] ==> queue == [] && inFlight == old(inFlight)
      ensures old(queue) != [] ==> queue == old(queue)[1..]
      ensures old(queue) != [] && handleObtained ==>
        inFlight == old(inFlight) + [Dispatched(old(queue)[0], old(baseUrl), Headers(old(authToken)))]
      ensures old(queue) != [] && !handleObtained ==> inFlight == old(inFlight)
    {
      if queue != [] {
        var request := queue[0];
        queue := queue[1..];
        if handleObtained {
          inFlight := inFlight + [Dispatched(request, baseUrl, Headers(authToken))];
        }
      }
    }

    /**
     * Update until the queue is empty: every queued request is handed on in
     * order (or, without handles, dropped).
     */
    method Flush(handleObtained: bool)
      modifies this`queue, this`inFlight
      ensures queue == []
      ensures inFlight == old(inFlight) + if handleObtained then DispatchAll(old(queue), baseUrl, Headers(authToken)) else []
    {
      ghost var sent := queue;
      ghost var k := 0;
      while queue != []
        invariant 0 <= k <= |sent| && queue == sent[k..]
        invariant inFlight == old(inFlight) + if handleObtained then DispatchAll(sent[..k], baseUrl, Headers(authToken)) else []
        decreases |queue|
      {
        assert sent[..k + 1][..k] == sent[..k];
        Update(handleObtained);
        k := k + 1;
      }
      assert sent[..k] == sent;
    }

    /**
     * A worker finishes: the i-th in-flight request leaves the pool and its
     * callback receives the outcome of the exchange.
     */
    method Complete(i: nat, t: Transport) returns (callback: Callback, outcome: Outcome)
      requires i < |inFlight|
      modifies this`inFlight
      ensures inFlight == old(inFlight[..i] + inFlight[i + 1..])
      ensures callback == old(inFlight[i].request.callback)
      ensures outcome == Respond(parse, old(inFlight[i].request.isAuthRequest), t)
    {
      var d := inFlight[i];
      inFlight := inFlight[..i] + inFlight[i + 1..];
      callback := d.request.callback;
      outcome := Respond(parse, d.request.isAuthRequest, t);
    }
  }
}
