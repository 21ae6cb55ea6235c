// The game-session routes of the backend (/api/game/...): what each handler
// demands of the request body, the defaults it fills in before calling the
// session service, and how it turns the service's answer into a reply.
// These handlers answer `{ error }` without a success flag; a thrown
// exception is caught and answered with 500 and a fixed message.
module GameRoutes {
  import opened Common
  import opened Json
  import opened Api
  import AuthNetwork

  /** What a service call gives back: `{ success: true, ... }`, `{ success: false, error }`, or a throw. */
  datatype ServiceOutcome<T> = Done(value: T) | Refused(error: string) | Threw

  /**
   * The tail every handler shares: 200 with the service's data, 400 with
   * its error, 500 with the handler's own message when something threw.
   */
  function Relay<T>(outcome: ServiceOutcome<T>, failMessage: string): (r: Reply<T>)
    ensures outcome.Done? ==> r == Success(200, outcome.value)
    ensures outcome.Refused? ==> r == Failure(400, outcome.error)
    ensures outcome.Threw? ==> r == Failure(500, failMessage)
  {
    match outcome
    case Done(v) => Success(200, v)
    case Refused(e) => Failure(400, e)
    case Threw => Failure(500, failMessage)
  }

  // ---------------------------------------------------------------------
  // POST /session/start
  // ---------------------------------------------------------------------

  /** The mode handed to startSession: `gameMode` as sent, 'normal' when undefined. */
  function StartMode(body: JsonValue): (mode: JsonValue)
    ensures Has(body, "gameMode") ==> mode == Member(body, "gameMode")
    ensures !Has(body, "gameMode") ==> mode == JString("normal")
  {
    OrDefault(Field(body, "gameMode"), JString("normal"))
  }

  /** `outcome` is what startSession answers for the mode StartMode picks. */
  function StartSession<T>(outcome: ServiceOutcome<T>): (r: Reply<T>)
    ensures r.Failure? ==> r.status == 400 || r.status == 500
    ensures outcome.Done? ==> r == Success(200, outcome.value)
    ensures outcome.Refused? ==> r == Failure(400, outcome.error)
    ensures outcome.Threw? ==> r == Failure(500, "Failed to start game session")
  {
    Relay(outcome, "Failed to start game session")
  }

  /** The client's start request always asks for the normal mode. */
  lemma ClientStartsNormalGames()
    ensures StartMode(AuthNetwork.SessionStartBody()) == JString("normal")
  {
    assert Has(AuthNetwork.SessionStartBody(), "gameMode");
  }

  // ---------------------------------------------------------------------
  // POST /progress/save and POST /session/end
  // ---------------------------------------------------------------------

  const SessionIdRequired := "Session ID is required"

  /** `field || fallback` read from the request body. */
  function Read(body: JsonValue, key: string, fallback: JsonValue): (v: JsonValue)
    ensures Truthy(Field(body, key)) ==> v == Member(body, key)
    ensures !Truthy(Field(body, key)) ==> v == fallback
  {
    OrElse(Field(body, key), fallback)
  }

  /** The progress object handed to saveProgress. */
  datatype ProgressData = ProgressData(
    currentScore: JsonValue, leaderboardPoints: JsonValue, skillPoints: JsonValue,
    survivalTime: JsonValue, kills: JsonValue, enemiesSpawned: JsonValue,
    damageDealt: JsonValue, damageTaken: JsonValue, waveReached: JsonValue)

  function ProgressOf(body: JsonValue): ProgressData
  {
    ProgressData(
      Read(body, "currentScore", JInt(0)), Read(body, "leaderboardPoints", JInt(0)),
      Read(body, "skillPoints", JInt(0)), Read(body, "survivalTime", JInt(0)),
      Read(body, "kills", JInt(0)), Read(body, "enemiesSpawned", JInt(0)),
      Read(body, "damageDealt", JInt(0)), Read(body, "damageTaken", JInt(0)),
      Read(body, "waveReached", JInt(1)))
  }

  /** The call saveProgress receives: none at all without a truthy sessionId. */
  function ProgressCall(body: JsonValue): (call: Option<(JsonValue, ProgressData)>)
    ensures call.Some? <==> Truthy(Field(body, "sessionId"))
    ensures call.Some? ==> call.value.0 == Member(body, "sessionId")
  {
    if Truthy(Field(body, "sessionId")) then Some((Member(body, "sessionId"), ProgressOf(body))) else None
  }

  /** `outcome` is what saveProgress answers for the call ProgressCall makes. */
  function SaveProgress<T>(body: JsonValue, outcome: ServiceOutcome<T>): (r: Reply<T>)
    ensures ProgressCall(body).None? ==> r == Failure(400, SessionIdRequired)
    ensures ProgressCall(body).Some? ==> r == Relay(outcome, "Failed to save progress")
  {
    if ProgressCall(body).None? then Failure(400, SessionIdRequired)
    else Relay(outcome, "Failed to save progress")
  }

  /** The session summary handed to endSession. */
  datatype EndData = EndData(
    finalScore: JsonValue, leaderboardPointsEarned: JsonValue, skillPointsEarned: JsonValue,
    survivalTime: JsonValue, kills: JsonValue, enemiesSpawned: JsonValue,
    damageDealt: JsonValue, damageTaken: JsonValue, waveReached: JsonValue, endReason: JsonValue)

  function EndOf(body: JsonValue): EndData
  {
    EndData(
      Read(body, "finalScore", JInt(0)), Read(body, "leaderboardPointsEarned", JInt(0)),
      Read(body, "skillPointsEarned", JInt(0)), Read(body, "survivalTime", JInt(0)),
      Read(body, "kills", JInt(0)), Read(body, "enemiesSpawned", JInt(0)),
      Read(body, "damageDealt", JInt(0)), Read(body, "damageTaken", JInt(0)),
      Read(body, "waveReached", JInt(1)), Read(body, "endReason", JString("player_death")))
  }

  function EndCall(body: JsonValue): (call: Option<(JsonValue, EndData)>)
    ensures call.Some? <==> Truthy(Field(body, "sessionId"))
    ensures call.Some? ==> call.value.0 == Member(body, "sessionId")
  {
    if Truthy(Field(body, "sessionId")) then Some((Member(body, "sessionId"), EndOf(body))) else None
  }

  /** `outcome` is what endSession answers for the call EndCall makes. */
  function EndSession<T>(body: JsonValue, outcome: ServiceOutcome<T>): (r: Reply<T>)
    ensures EndCall(body).None? ==> r == Failure(400, SessionIdRequired)
    ensures EndCall(body).Some? ==> r == Relay(outcome, "Failed to end game session")
  {
    if EndCall(body).None? then Failure(400, SessionIdRequired)
    else Relay(outcome, "Failed to end game session")
  }

  /**
   * Without a session id the service is never consulted: both routes give
   * the same 400 whatever the service would have answered.
   */
  lemma NoSessionIdNoCall<T>(body: JsonValue, a: ServiceOutcome<T>, b: ServiceOutcome<T>)
    requires !Truthy(Field(body, "sessionId"))
    ensures SaveProgress(body, a) == SaveProgress(body, b) == Failure(400, SessionIdRequired)
    ensures EndSession(body, a) == EndSession(body, b) == Failure(400, SessionIdRequired)
    ensures ProgressCall(body).None? && EndCall(body).None?
  {
  }

  /** A falsy number (0, null, absent, "") counts as 0, and as wave 1. */
  lemma FalsyFieldsDefault(body: JsonValue)
    ensures !Truthy(Field(body, "kills")) ==> EndOf(body).kills == JInt(0) && ProgressOf(body).kills == JInt(0)
    ensures !Truthy(Field(body, "waveReached")) ==>
      EndOf(body).waveReached == JInt(1) && ProgressOf(body).waveReached == JInt(1)
    ensures !Truthy(Field(body, "endReason")) ==> EndOf(body).endReason == JString("player_death")
    ensures Truthy(Field(body, "finalScore")) ==> EndOf(body).finalScore == Member(body, "finalScore")
  {
  }

  /** `n || 0` on a number the client sent is that number: 0 falls back to 0. */
  lemma ReadSentNumber(body: JsonValue, key: string, v: JsonValue)
    requires Field(body, key) == Some(v) && (v.JInt? || v.JReal?)
    ensures Read(body, key, JInt(0)) == (if v == JReal(0.0) then JInt(0) else v)
  {
  }

  /** The members of the client's session-end body, in the order it assigns them. */
  function SessionEndMembers(sessionId: string, finalScore: int, leaderboardPoints: int,
                             skillPoints: int, survivalTime: real, kills: int,
                             damageDealt: int, damageTaken: int, waveReached: int): (m: seq<(string, JsonValue)>)
    ensures Object(m) == AuthNetwork.SessionEndBody(sessionId, finalScore, leaderboardPoints, skillPoints,
                                                    survivalTime, kills, damageDealt, damageTaken, waveReached)
  {
    [("sessionId", JString(sessionId)),
     ("finalScore", JInt(finalScore)),
     ("leaderboardPointsEarned", JInt(leaderboardPoints)),
     ("skillPointsEarned", JInt(skillPoints)),
     ("survivalTime", Number(survivalTime)),
     ("kills", JInt(kills)),
     ("damageDealt", JInt(damageDealt)),
     ("damageTaken", JInt(damageTaken)),
     ("waveReached", JInt(waveReached)),
     ("endReason", JString("player_death"))]
  }

  /** What the client's session-end body holds: the id, the score and the points. */
  lemma SessionEndFieldsFirst(sessionId: string, finalScore: int, leaderboardPoints: int,
                              skillPoints: int, survivalTime: real, kills: int,
                              damageDealt: int, damageTaken: int, waveReached: int)
    ensures
      var body := AuthNetwork.SessionEndBody(sessionId, finalScore, leaderboardPoints, skillPoints,
                                             survivalTime, kills, damageDealt, damageTaken, waveReached);
      Field(body, "sessionId") == Some(JString(sessionId))
      && Field(body, "finalScore") == Some(JInt(finalScore))
      && Field(body, "leaderboardPointsEarned") == Some(JInt(leaderboardPoints))
      && Field(body, "skillPointsEarned") == Some(JInt(skillPoints))
      && Field(body, "survivalTime") == Some(Number(survivalTime))
  {
    var members := SessionEndMembers(sessionId, finalScore, leaderboardPoints, skillPoints, survivalTime, kills,
                                     damageDealt, damageTaken, waveReached);
    ObjectMemberAt(members, 0, "sessionId");
    ObjectMemberAt(members, 1, "finalScore");
    ObjectMemberAt(members, 2, "leaderboardPointsEarned");
    ObjectMemberAt(members, 3, "skillPointsEarned");
    ObjectMemberAt(members, 4, "survivalTime");
  }

  /** What the client's session-end body holds: the combat totals, the wave and the reason. */
  lemma SessionEndFieldsRest(sessionId: string, finalScore: int, leaderboardPoints: int,
                             skillPoints: int, survivalTime: real, kills: int,
                             damageDealt: int, damageTaken: int, waveReached: int)
    ensures
      var body := AuthNetwork.SessionEndBody(sessionId, finalScore, leaderboardPoints, skillPoints,
                                             survivalTime, kills, damageDealt, damageTaken, waveReached);
      Field(body, "kills") == Some(JInt(kills))
      && Field(body, "damageDealt") == Some(JInt(damageDealt))
      && Field(body, "damageTaken") == Some(JInt(damageTaken))
      && Field(body, "waveReached") == Some(JInt(waveReached))
      && Field(body, "endReason") == Some(JString("player_death"))
      && Field(body, "enemiesSpawned") == None
  {
    var members := SessionEndMembers(sessionId, finalScore, leaderboardPoints, skillPoints, survivalTime, kills,
                                     damageDealt, damageTaken, waveReached);
    ObjectMemberAt(members, 5, "kills");
    ObjectMemberAt(members, 6, "damageDealt");
    ObjectMemberAt(members, 7, "damageTaken");
    ObjectMemberAt(members, 8, "waveReached");
    ObjectMemberAt(members, 9, "endReason");
    ObjectLacks(members, "enemiesSpawned");
  }

  /**
   * The client's session-end request reaches endSession with its numbers
   * unchanged, except that a wave of 0 is raised to 1; enemiesSpawned,
   * which the client does not send, counts as 0.
   */
  lemma ClientSessionEndArrivesIntact(sessionId: string, finalScore: int, leaderboardPoints: int,
                                      skillPoints: int, survivalTime: real, kills: int,
                                      damageDealt: int, damageTaken: int, waveReached: int)
    requires sessionId != ""
    ensures
      var body := AuthNetwork.SessionEndBody(sessionId, finalScore, leaderboardPoints, skillPoints,
                                             survivalTime, kills, damageDealt, damageTaken, waveReached);
      EndCall(body) == Some((JString(sessionId), EndData(
        JInt(finalScore), JInt(leaderboardPoints), JInt(skillPoints), Number(survivalTime),
        JInt(kills), JInt(0), JInt(damageDealt), JInt(damageTaken),
        JInt(if waveReached == 0 then 1 else waveReached), JString("player_death"))))
  {
    var body := AuthNetwork.SessionEndBody(sessionId, finalScore, leaderboardPoints, skillPoints,
                                           survivalTime, kills, damageDealt, damageTaken, waveReached);
    SessionEndFieldsFirst(sessionId, finalScore, leaderboardPoints, skillPoints, survivalTime, kills,
                          damageDealt, damageTaken, waveReached);
    SessionEndFieldsRest(sessionId, finalScore, leaderboardPoints, skillPoints, survivalTime, kills,
                         damageDealt, damageTaken, waveReached);
    ReadSentNumber(body, "survivalTime", Number(survivalTime));
  }

  /** What the client's progress body holds, field by field. */
  lemma ProgressFields(sessionId: string, currentScore: int, leaderboardPoints: int,
                       skillPoints: int, survivalTime: real, livesRemaining: int)
    ensures
      var body := AuthNetwork.ProgressSaveBody(sessionId, currentScore, leaderboardPoints, skillPoints,
                                               survivalTime, livesRemaining);
      Field(body, "sessionId") == Some(JString(sessionId))
      && Field(body, "currentScore") == Some(JInt(currentScore))
      && Field(body, "leaderboardPoints") == Some(JInt(leaderboardPoints))
      && Field(body, "skillPoints") == Some(JInt(skillPoints))
      && Field(body, "survivalTime") == Some(Number(survivalTime))
      && Field(body, "kills") == None && Field(body, "enemiesSpawned") == None
      && Field(body, "damageDealt") == None && Field(body, "damageTaken") == None
      && Field(body, "waveReached") == None
  {
    var members := [
      ("sessionId", JString(sessionId)),
      ("currentScore", JInt(currentScore)),
      ("leaderboardPoints", JInt(leaderboardPoints)),
      ("skillPoints", JInt(skillPoints)),
      ("survivalTime", Number(survivalTime)),
      ("livesRemaining", JInt(livesRemaining))];
    ObjectMemberAt(members, 0, "sessionId");
    ObjectMemberAt(members, 1, "currentScore");
    ObjectMemberAt(members, 2, "leaderboardPoints");
    ObjectMemberAt(members, 3, "skillPoints");
    ObjectMemberAt(members, 4, "survivalTime");
    ObjectLacks(members, "kills");
    ObjectLacks(members, "enemiesSpawned");
    ObjectLacks(members, "damageDealt");
    ObjectLacks(members, "damageTaken");
    ObjectLacks(members, "waveReached");
  }

  /**
   * The client's progress request reaches saveProgress with its score,
   * points and time; the fields it does not send count as 0 (wave 1), and
   * livesRemaining is not read.
   */
  lemma ClientProgressArrivesIntact(sessionId: string, currentScore: int, leaderboardPoints: int,
                                    skillPoints: int, survivalTime: real, livesRemaining: int)
    requires sessionId != ""
    ensures
      var body := AuthNetwork.ProgressSaveBody(sessionId, currentScore, leaderboardPoints, skillPoints,
                                               survivalTime, livesRemaining);
      ProgressCall(body) == Some((JString(sessionId), ProgressData(
        JInt(currentScore), JInt(leaderboardPoints), JInt(skillPoints), Number(survivalTime),
        JInt(0), JInt(0), JInt(0), JInt(0), JInt(1))))
  {
    var body := AuthNetwork.ProgressSaveBody(sessionId, currentScore, leaderboardPoints, skillPoints,
                                             survivalTime, livesRemaining);
    ProgressFields(sessionId, currentScore, leaderboardPoints, skillPoints, survivalTime, livesRemaining);
    ReadSentNumber(body, "survivalTime", Number(survivalTime));
  }

  // ---------------------------------------------------------------------
  // GET /leaderboards/:type?
  // ---------------------------------------------------------------------

  const ValidTypes: seq<string> := ["normal", "leaderboard", "skill"]

  function InvalidType(): string
  {
    "Invalid leaderboard type. Must be one of: " + Join(ValidTypes, ", ")
  }

  /**
   * The call getLeaderboards receives: the type ('normal' when the path
   * has none) and parseInt of the limit query (50 when absent; None is NaN).
   * No call is made for any other type.
   */
  function LeaderboardsCall(typeParam: Option<string>, limitQuery: Option<string>): (call: Option<(string, Option<int>)>)
    ensures call.Some? <==> typeParam.GetOr("normal") in ValidTypes
    ensures call.Some? ==> call.value.0 == typeParam.GetOr("normal")
    ensures call.Some? && limitQuery.None? ==> call.value.1 == Some(50)
  {
    var kind := typeParam.GetOr("normal");
    if kind !in ValidTypes then None
    else Some((kind, if limitQuery.Some? then ParseIntJs(limitQuery.value) else Some(50)))
  }

  /** The board as the route returns it: its type and the service's rows. */
  datatype Board<T> = Board(kind: string, leaderboard: T)

  function Leaderboards<T>(typeParam: Option<string>, limitQuery: Option<string>,
                           outcome: ServiceOutcome<T>): (r: Reply<Board<T>>)
    ensures LeaderboardsCall(typeParam, limitQuery).None? ==> r == Failure(400, InvalidType())
    ensures LeaderboardsCall(typeParam, limitQuery).Some? ==>
      (outcome.Done? ==> r == Success(200, Board(typeParam.GetOr("normal"), outcome.value)))
      && (outcome.Refused? ==> r == Failure(400, outcome.error))
      && (outcome.Threw? ==> r == Failure(500, "Failed to get leaderboards"))
  {
    var kind := typeParam.GetOr("normal");
    if LeaderboardsCall(typeParam, limitQuery).None? then Failure(400, InvalidType())
    else match outcome
      case Done(rows) => Success(200, Board(kind, rows))
      case Refused(e) => Failure(400, e)
      case Threw => Failure(500, "Failed to get leaderboards")
  }

  /**
   * A request without a type asks for the normal board, 50 rows; a limit
   * written as a decimal integer reaches the service as that integer.
   */
  lemma LeaderboardRequests(kind: string, n: int)
    requires kind in ValidTypes
    ensures LeaderboardsCall(None, None) == Some(("normal", Some(50)))
    ensures LeaderboardsCall(Some(kind), Some(IntToString(n))) == Some((kind, Some(n)))
    ensures LeaderboardsCall(Some("weekly"), None) == None
  {
    ParseIntJsOfIntToString(n);
  }

  // ---------------------------------------------------------------------
  // POST /scores/normal, /scores/leaderboard, /scores/skill
  // ---------------------------------------------------------------------

  const ProfileNotFound := "User profile not found"

  /** The three routes, each with the message its catch answers with. */
  datatype ScoreKind = NormalScore | LeaderboardScore | SkillScore

  function SaveFailMessage(kind: ScoreKind): (m: string)
    ensures kind.NormalScore? <==> m == "Failed to save normal score"
    ensures kind.LeaderboardScore? <==> m == "Failed to save leaderboard score"
    ensures kind.SkillScore? <==> m == "Failed to save skill score"
  {
    match kind
    case NormalScore => "Failed to save normal score"
    case LeaderboardScore => "Failed to save leaderboard score"
    case SkillScore => "Failed to save skill score"
  }

  /**
   * The three single-score routes: look up the profile whose user_id is
   * the signed-in id (None when there is none), then pass the ScoreService
   * result on: 404 without a profile, 400 with the service's error, 500
   * with the route's message when the service throws (a missing score
   * object is destructured before the service's own try).
   */
  function SaveOneScore<T>(kind: ScoreKind, profileId: Option<int>, saved: ServiceOutcome<T>): (r: Reply<T>)
    ensures profileId.None? <==> r == Failure(404, ProfileNotFound)
    ensures profileId.Some? ==> (r.Success? <==> saved.Done?)
    ensures profileId.Some? && saved.Done? ==> r == Success(200, saved.value)
    ensures profileId.Some? && saved.Refused? ==> r == Failure(400, saved.error)
    ensures profileId.Some? && saved.Threw? ==> r == Failure(500, SaveFailMessage(kind))
  {
    if profileId.None? then Failure(404, ProfileNotFound)
    else Relay(saved, SaveFailMessage(kind))
  }
}
