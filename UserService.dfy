// The backend's user rules: creating and linking accounts, choosing the
// sign-in path, folding a game's results into a profile's totals, and
// ranking profiles for a leaderboard. Database rows are inputs, a failed
// query is an error message passed in, and password hashing and checking
// are parameters.
module UserService {
  import opened Common

  /** The profile columns the account operations write and return. */
  datatype Profile = Profile(
    id: int,
    username: string,
    email: Option<string>,
    steamId: Option<string>,
    avatar: Option<string>,
    authMethod: string,
    passwordHash: Option<string>)

  /** The profile as the service returns it: `delete data.password_hash`. */
  function WithoutHash(p: Profile): (r: Profile)
    ensures r.passwordHash.None?
  {
    p.(passwordHash := None)
  }

  /** JavaScript truthiness of an optional text: present and not empty. */
  predicate Given(v: Option<string>)
  {
    v.Some? && v.value != ""
  }

  const DefaultAvatar := "default-cursor.png"

  // ---------------------------------------------------------------------
  // Creating accounts
  // ---------------------------------------------------------------------

  /**
   * createUser: an email account whose stored hash is the one given; the
   * returned profile carries no hash.
   */
  function CreateUser(newId: int, username: string, email: string, passwordHash: string,
                      insertError: Option<string>): (r: Result<Profile, string>)
    ensures insertError.Some? <==> r.Err?
    ensures r.Ok? ==> (r.value.authMethod == "email" && r.value.email == Some(email) &&
      r.value.username == username && r.value.steamId.None? && r.value.passwordHash.None?)
  {
    if insertError.Some? then Err(insertError.value)
    else Ok(WithoutHash(Profile(newId, username, Some(email), None, None, "email", Some(passwordHash))))
  }

  /** The username a new Steam account gets: the given one, else "Steam_" and the first 8 characters of the id. */
  function SteamUsername(steamId: string, username: Option<string>): (r: string)
    ensures Given(username) ==> r == username.value
    ensures !Given(username) ==> |r| == 6 + (if |steamId| < 8 then |steamId| else 8) && r[..6] == "Steam_"
    ensures !Given(username) ==> r[6..] <= steamId
  {
    if Given(username) then username.value else "Steam_" + Take(steamId, 8)
  }

  /**
   * What findUserBySteamId and findUserByEmail give: the row, no row (the
   * not-found code PGRST116), or any other query error, which they throw
   * with its message.
   */
  type Lookup = Result<Option<Profile>, string>

  /**
   * createSteamUser: the existing account for a known Steam id, otherwise a
   * new Steam account with the default name and avatar where none is given;
   * a failed lookup is thrown before anything is inserted.
   */
  function CreateSteamUser(existing: Lookup, newId: int, steamId: string, username: Option<string>,
                           avatar: Option<string>, insertError: Option<string>): (r: Result<Profile, string>)
    ensures existing.Err? ==> r == Err(existing.error)
    ensures existing.Ok? && existing.value.Some? ==> r == Ok(existing.value.value)
    ensures existing == Ok(None) && insertError.Some? ==> r == Err(insertError.value)
    ensures existing == Ok(None) && insertError.None? ==> (r.Ok? && r.value.authMethod == "steam" &&
      r.value.username == SteamUsername(steamId, username) &&
      r.value.steamId == Some(steamId) && r.value.email.None? && r.value.passwordHash.None? &&
      r.value.avatar == Some(if Given(avatar) then avatar.value else DefaultAvatar))
  {
    match existing
    case Err(message) => Err(message)
    case Ok(Some(user)) => Ok(user)
    case Ok(None) =>
      if insertError.Some? then Err(insertError.value)
      else Ok(Profile(newId, SteamUsername(steamId, username), None, Some(steamId),
                      Some(if Given(avatar) then avatar.value else DefaultAvatar), "steam", None))
  }

  /**
   * Creating a Steam account is idempotent: once the account exists, a
   * second request for the same id returns it unchanged, whatever name and
   * avatar come with the request.
   */
  lemma CreateSteamUserIdempotent(newId: int, steamId: string, username: Option<string>, avatar: Option<string>,
                                  otherId: int, otherName: Option<string>, otherAvatar: Option<string>,
                                  otherError: Option<string>)
    requires CreateSteamUser(Ok(None), newId, steamId, username, avatar, None).Ok?
    ensures var created := CreateSteamUser(Ok(None), newId, steamId, username, avatar, None).value;
      CreateSteamUser(Ok(Some(created)), otherId, steamId, otherName, otherAvatar, otherError) == Ok(created)
  {
  }

  /** createLinkedUser: an account with both an email and a Steam id; the returned profile carries no hash. */
  function CreateLinkedUser(newId: int, username: string, email: string, passwordHash: string, steamId: string,
                            avatar: Option<string>, insertError: Option<string>): (r: Result<Profile, string>)
    ensures insertError.Some? <==> r.Err?
    ensures r.Ok? ==> (r.value.authMethod == "linked" && r.value.email == Some(email) &&
      r.value.steamId == Some(steamId) && r.value.passwordHash.None? &&
      r.value.avatar == Some(if Given(avatar) then avatar.value else DefaultAvatar))
  {
    if insertError.Some? then Err(insertError.value)
    else Ok(WithoutHash(Profile(newId, username, Some(email), Some(steamId),
                                Some(if Given(avatar) then avatar.value else DefaultAvatar), "linked", Some(passwordHash))))
  }

  const EmailAccountNotFound := "Email account not found"
  const SteamOnlyAccount := "Cannot link Steam to Steam-only account"

  /**
   * linkSteamToEmailAccount: the account found by email gets the Steam id
   * and becomes a linked account; a failed lookup, a missing account and a
   * Steam-only account are refused.
   */
  function LinkSteamToEmailAccount(found: Lookup, steamId: string, updateError: Option<string>): (r: Result<Profile, string>)
    ensures found.Err? ==> r == Err(found.error)
    ensures found == Ok(None) ==> r == Err(EmailAccountNotFound)
    ensures found.Ok? && found.value.Some? && found.value.value.authMethod == "steam" ==> r == Err(SteamOnlyAccount)
    ensures r.Ok? <==> found.Ok? && found.value.Some? && found.value.value.authMethod != "steam" && updateError.None?
    ensures r.Ok? ==> r.value == WithoutHash(found.value.value).(steamId := Some(steamId), authMethod := "linked")
  {
    match found
    case Err(message) => Err(message)
    case Ok(None) => Err(EmailAccountNotFound)
    case Ok(Some(user)) =>
      if user.authMethod == "steam" then Err(SteamOnlyAccount)
      else if updateError.Some? then Err(updateError.value)
      else Ok(WithoutHash(user.(steamId := Some(steamId), authMethod := "linked")))
  }

  /**
   * A successful link changes only the Steam id and the method: the account
   * keeps its id, name, email and avatar, carries no hash, and linking it
   * again to the same Steam id gives the same account.
   */
  lemma LinkKeepsTheAccount(account: Profile, steamId: string)
    requires account.authMethod != "steam"
    ensures var r := LinkSteamToEmailAccount(Ok(Some(account)), steamId, None);
      r.Ok? && r.value.authMethod == "linked" && r.value.steamId == Some(steamId) &&
      r.value.id == account.id && r.value.username == account.username &&
      r.value.email == account.email && r.value.avatar == account.avatar &&
      r.value.passwordHash.None? &&
      LinkSteamToEmailAccount(Ok(Some(r.value)), steamId, None) == r
  {
  }

  // ---------------------------------------------------------------------
  // Signing in
  // ---------------------------------------------------------------------

  const InvalidEmailOrPassword := "Invalid email or password"
  const InvalidLinkedCredentials := "Invalid credentials for linked account"
  const InvalidMethod := "Invalid authentication method"
  /** What bcrypt's compare throws when the stored hash is null. */
  const HashMissing := "Illegal arguments: string, object"

  /**
   * authenticateEmailUser: the lookup only finds email and linked accounts,
   * and the password must match the stored hash; both failures give the
   * same message. A found account without a hash makes the comparison throw.
   */
  function AuthenticateEmailUser(row: Option<Profile>, password: string, matches: (string, string) -> bool)
    : (r: Result<Profile, string>)
    ensures r.Ok? <==> (row.Some? && row.value.authMethod in {"email", "linked"} &&
      row.value.passwordHash.Some? && matches(password, row.value.passwordHash.value))
    ensures r.Err? ==> r.error in {InvalidEmailOrPassword, HashMissing}
    ensures r.Err? && r.error == HashMissing <==>
      (row.Some? && row.value.authMethod in {"email", "linked"} && row.value.passwordHash.None?)
    ensures r.Ok? ==> r.value == WithoutHash(row.value)
  {
    if row.None? || row.value.authMethod !in {"email", "linked"} then Err(InvalidEmailOrPassword)
    else if row.value.passwordHash.None? then Err(HashMissing)
    else if !matches(password, row.value.passwordHash.value) then Err(InvalidEmailOrPassword)
    else Ok(WithoutHash(row.value))
  }

  /**
   * loginSteamUser: the account the lookup finds, or else a new Steam account
   * made with the request's name and avatar by createSteamUser, which looks
   * the Steam id up once more (recheck) before inserting. A failed lookup is
   * thrown.
   */
  function LoginSteamUser(existing: Lookup, recheck: Lookup, newId: int, steamId: string, username: Option<string>,
                          avatar: Option<string>, insertError: Option<string>): (r: Result<Profile, string>)
    ensures existing.Err? ==> r == Err(existing.error)
    ensures existing.Ok? && existing.value.Some? ==> r == Ok(existing.value.value)
    ensures existing == Ok(None) && recheck.Err? ==> r == Err(recheck.error)
    ensures existing == Ok(None) && recheck == Ok(None) && insertError.None? ==>
      r.Ok? && r.value.authMethod == "steam" && r.value.steamId == Some(steamId) &&
      r.value.username == SteamUsername(steamId, username)
    ensures r.Ok? ==> existing.Ok? && (existing.value.Some? || recheck.Ok?)
  {
    match existing
    case Err(message) => Err(message)
    case Ok(Some(user)) => Ok(user)
    case Ok(None) => CreateSteamUser(recheck, newId, steamId, username, avatar, insertError)
  }

  datatype Credentials = Credentials(authMethod: Option<string>, email: Option<string>, password: Option<string>,
                                     steamId: Option<string>, steamUsername: Option<string>, steamAvatar: Option<string>)

  /** Which way authenticateUser signs a user in. */
  datatype SignIn = ByEmail(email: string, password: string) | BySteam(steamId: string)

  /**
   * authenticateUser's dispatch: email and steam take their own path;
   * linked takes the email path when both email and password are given,
   * else the Steam path when a Steam id is given; anything else is refused.
   */
  function SignInPath(c: Credentials): (r: Result<SignIn, string>)
    ensures c.authMethod == Some("linked") && Given(c.email) && Given(c.password) ==>
      r == Ok(ByEmail(c.email.value, c.password.value))
    ensures c.authMethod == Some("linked") && !(Given(c.email) && Given(c.password)) && Given(c.steamId) ==>
      r == Ok(BySteam(c.steamId.value))
    ensures r == Err(InvalidLinkedCredentials) <==>
      c.authMethod == Some("linked") && !(Given(c.email) && Given(c.password)) && !Given(c.steamId)
    ensures r == Err(InvalidMethod) <==> c.authMethod !in {Some("email"), Some("steam"), Some("linked")}
    ensures c.authMethod == Some("email") ==> r == Ok(ByEmail(c.email.GetOr(""), c.password.GetOr("")))
    ensures c.authMethod == Some("steam") ==> r == Ok(BySteam(c.steamId.GetOr("")))
  {
    match c.authMethod
    case Some("email") => Ok(ByEmail(c.email.GetOr(""), c.password.GetOr("")))
    case Some("steam") => Ok(BySteam(c.steamId.GetOr("")))
    case Some("linked") =>
      if Given(c.email) && Given(c.password) then Ok(ByEmail(c.email.value, c.password.value))
      else if Given(c.steamId) then Ok(BySteam(c.steamId.value))
      else Err(InvalidLinkedCredentials)
    case _ => Err(InvalidMethod)
  }

  /**
   * authenticateUser: the chosen path run against the rows found by email
   * and by Steam id.
   */
  function AuthenticateUser(c: Credentials, emailRow: Option<Profile>, steamLookup: Lookup, steamRecheck: Lookup,
                            matches: (string, string) -> bool, newId: int, insertError: Option<string>)
    : (r: Result<Profile, string>)
    ensures SignInPath(c).Err? ==> r == Err(SignInPath(c).error)
    ensures r.Ok? && SignInPath(c) == Ok(ByEmail(c.email.GetOr(""), c.password.GetOr(""))) ==>
      r.value.passwordHash.None? && r.value.authMethod in {"email", "linked"}
    ensures SignInPath(c).Ok? && SignInPath(c).value.BySteam? && steamLookup.Err? ==> r == Err(steamLookup.error)
    ensures SignInPath(c).Ok? && SignInPath(c).value.BySteam? && steamLookup.Ok? && steamLookup.value.Some? ==>
      r == Ok(steamLookup.value.value)
  {
    match SignInPath(c)
    case Err(message) => Err(message)
    case Ok(ByEmail(email, password)) => AuthenticateEmailUser(emailRow, password, matches)
    case Ok(BySteam(steamId)) => LoginSteamUser(steamLookup, steamRecheck, newId, steamId, c.steamUsername, c.steamAvatar, insertError)
  }

  // ---------------------------------------------------------------------
  // Game results folded into a profile
  // ---------------------------------------------------------------------

  /** The profile's play statistics; a column may be null. */
  datatype PlayStats = PlayStats(
    gamesPlayed: Option<real>,
    skillPoints: Option<real>,
    totalPlayTime: Option<real>,
    bestScore: Option<real>,
    longestSurvivalTime: Option<real>,
    totalKills: Option<real>,
    totalDamageDealt: Option<real>,
    totalDamageTaken: Option<real>)

  /** Math.floor. */
  function Floor(x: real): (r: real)
    ensures r <= x < r + 1.0
  {
    x.Floor as real
  }

  predicate IsWhole(v: Option<real>)
  {
    v.None? || v.value.Floor as real == v.value
  }

  /** A best-so-far column after a game: replaced only by a strictly larger value. */
  function Best(current: Option<real>, candidate: real): (r: Option<real>)
    ensures OrZero(r) >= OrZero(current)
    ensures candidate > OrZero(current) ==> r == Some(candidate)
    ensures candidate <= OrZero(current) ==> r == current
  {
    if candidate > OrZero(current) then Some(candidate) else current
  }

  /**
   * The longest survival after a game: replaced by the floored time when
   * the time beats the record. The record is always floored, so the floored
   * time cannot be below it.
   */
  function Longest(current: Option<real>, survivalTime: real): (r: Option<real>)
    requires IsWhole(current)
    ensures IsWhole(r) && OrZero(r) >= OrZero(current)
    ensures survivalTime > OrZero(current) ==> r == Some(Floor(survivalTime))
    ensures survivalTime <= OrZero(current) ==> r == current
  {
    if survivalTime > OrZero(current) then
      assert Floor(survivalTime) >= OrZero(current) by {
        var n := OrZero(current).Floor;
        assert OrZero(current) == n as real;
        assert survivalTime.Floor >= n;
      }
      Some(Floor(survivalTime))
    else current
  }

  datatype Progress = Progress(leaderboardPoints: Option<real>, skillPoints: Option<real>,
                               currentScore: Option<real>, survivalTime: Option<real>)

  /**
   * updateUserProgress: skill points and play time are added (missing
   * values count as 0, the time floored); the best score and the longest
   * survival are replaced only by a truthy, larger value; nothing else
   * changes. The leaderboard points of the request are not recorded.
   */
  function UpdateUserProgress(user: Option<PlayStats>, p: Progress, updateError: Option<string>)
    : (r: Result<PlayStats, string>)
    requires user.Some? ==> IsWhole(user.value.longestSurvivalTime)
    ensures user.None? ==> r == Err(UserNotFound)
    ensures user.Some? && updateError.Some? ==> r == Err(updateError.value)
    ensures r.Ok? <==> user.Some? && updateError.None?
    ensures r.Ok? ==> var old_ := user.value; var new_ := r.value; var score := OrZero(p.currentScore);
      new_.bestScore == if score != 0.0 && score > OrZero(old_.bestScore) then Some(score) else old_.bestScore
    ensures r.Ok? ==> var old_ := user.value; var new_ := r.value; var time := OrZero(p.survivalTime);
      new_.longestSurvivalTime
        == if time != 0.0 && time > OrZero(old_.longestSurvivalTime) then Some(Floor(time)) else old_.longestSurvivalTime
    ensures r.Ok? ==> var old_ := user.value; var new_ := r.value;
      new_.skillPoints == Some(OrZero(old_.skillPoints) + OrZero(p.skillPoints)) &&
      new_.totalPlayTime == Some(OrZero(old_.totalPlayTime) + Floor(OrZero(p.survivalTime))) &&
      OrZero(new_.bestScore) >= OrZero(old_.bestScore) &&
      OrZero(new_.longestSurvivalTime) >= OrZero(old_.longestSurvivalTime) &&
      IsWhole(new_.longestSurvivalTime) &&
      new_.gamesPlayed == old_.gamesPlayed && new_.totalKills == old_.totalKills &&
      new_.totalDamageDealt == old_.totalDamageDealt && new_.totalDamageTaken == old_.totalDamageTaken
  {
    if user.None? then Err(UserNotFound)
    else if updateError.Some? then Err(updateError.value)
    else
      var u := user.value;
      var score := OrZero(p.currentScore);
      var time := OrZero(p.survivalTime);
      Ok(u.(skillPoints := Some(OrZero(u.skillPoints) + OrZero(p.skillPoints)),
            totalPlayTime := Some(OrZero(u.totalPlayTime) + Floor(time)),
            bestScore := if score != 0.0 then Best(u.bestScore, score) else u.bestScore,
            longestSurvivalTime := if time != 0.0 then Longest(u.longestSurvivalTime, time) else u.longestSurvivalTime))
  }

  const UserNotFound := "User not found"

  /** A game's results as endGameSession receives them; the counts may be missing. */
  datatype SessionResult = SessionResult(
    finalScore: real, survivalTime: real, kills: Option<real>, damageDealt: Option<real>,
    damageTaken: Option<real>, waveReached: Option<real>, leaderboardPointsEarned: Option<real>,
    skillPointsEarned: Option<real>)

  /** The game_sessions row written for a game. */
  datatype SessionRecord = SessionRecord(score: real, survivalTime: real, kills: real, damageDealt: real,
                                         damageTaken: real, waveReached: real)

  /** A destructuring default: applies only to a missing value. */
  function Default(v: Option<real>, d: real): real
  {
    if v.Some? then v.value else d
  }

  /** The session row: the counts default to 0 and the wave to 1, the time is floored. */
  function SessionRow(s: SessionResult): (r: SessionRecord)
    ensures s.kills.None? ==> r.kills == 0.0
    ensures s.waveReached.None? ==> r.waveReached == 1.0
    ensures r.survivalTime <= s.survivalTime < r.survivalTime + 1.0
  {
    SessionRecord(s.finalScore, Floor(s.survivalTime), Default(s.kills, 0.0), Default(s.damageDealt, 0.0),
                  Default(s.damageTaken, 0.0), Default(s.waveReached, 1.0))
  }

  /** The statistics after a finished game. */
  function AfterGame(u: PlayStats, s: SessionResult): (r: PlayStats)
    requires IsWhole(u.longestSurvivalTime)
    ensures OrZero(r.gamesPlayed) == OrZero(u.gamesPlayed) + 1.0
    ensures OrZero(r.bestScore) >= OrZero(u.bestScore) && OrZero(r.longestSurvivalTime) >= OrZero(u.longestSurvivalTime)
    ensures IsWhole(r.longestSurvivalTime)
    ensures r.bestScore == if s.finalScore > OrZero(u.bestScore) then Some(s.finalScore) else u.bestScore
    ensures r.longestSurvivalTime
      == if s.survivalTime > OrZero(u.longestSurvivalTime) then Some(Floor(s.survivalTime)) else u.longestSurvivalTime
  {
    var row := SessionRow(s);
    PlayStats(
      Some(OrZero(u.gamesPlayed) + 1.0),
      Some(OrZero(u.skillPoints) + Default(s.skillPointsEarned, 0.0)),
      Some(OrZero(u.totalPlayTime) + row.survivalTime),
      Best(u.bestScore, s.finalScore),
      Longest(u.longestSurvivalTime, s.survivalTime),
      Some(OrZero(u.totalKills) + row.kills),
      Some(OrZero(u.totalDamageDealt) + row.damageDealt),
      Some(OrZero(u.totalDamageTaken) + row.damageTaken))
  }

  /**
   * endGameSession: the session row is written first, then the profile's
   * statistics are updated; each failure stops it with its message.
   */
  function EndGameSession(s: SessionResult, sessionError: Option<string>, user: Option<PlayStats>,
                          updateError: Option<string>): (r: Result<(SessionRecord, PlayStats), string>)
    requires user.Some? ==> IsWhole(user.value.longestSurvivalTime)
    ensures sessionError.Some? ==> r == Err(sessionError.value)
    ensures sessionError.None? && user.None? ==> r == Err(UserNotFound)
    ensures r.Ok? ==> r.value.0 == SessionRow(s) && r.value.1 == AfterGame(user.value, s)
  {
    if sessionError.Some? then Err(sessionError.value)
    else if user.None? then Err(UserNotFound)
    else if updateError.Some? then Err(updateError.value)
    else Ok((SessionRow(s), AfterGame(user.value, s)))
  }

  /**
   * Every total grows by exactly what the game added, and the leaderboard
   * points earned play no part in the profile.
   */
  lemma {:induction false} AfterGameAddsTheGame(u: PlayStats, s: SessionResult, points: Option<real>)
    requires IsWhole(u.longestSurvivalTime)
    ensures var r := AfterGame(u, s); var row := SessionRow(s);
      OrZero(r.totalKills) - OrZero(u.totalKills) == row.kills &&
      OrZero(r.totalDamageDealt) - OrZero(u.totalDamageDealt) == row.damageDealt &&
      OrZero(r.totalDamageTaken) - OrZero(u.totalDamageTaken) == row.damageTaken &&
      OrZero(r.totalPlayTime) - OrZero(u.totalPlayTime) == row.survivalTime &&
      OrZero(r.skillPoints) - OrZero(u.skillPoints) == Default(s.skillPointsEarned, 0.0)
    ensures AfterGame(u, s.(leaderboardPointsEarned := points)) == AfterGame(u, s)
  {
  }

  /**
   * Folding games one after another keeps the record columns from ever
   * decreasing and counts every game.
   */
  lemma {:induction false} GamesOnlyRaiseRecords(u: PlayStats, games: seq<SessionResult>)
    requires IsWhole(u.longestSurvivalTime)
    ensures IsWhole(AfterGames(u, games).longestSurvivalTime)
    ensures OrZero(AfterGames(u, games).bestScore) >= OrZero(u.bestScore)
    ensures OrZero(AfterGames(u, games).longestSurvivalTime) >= OrZero(u.longestSurvivalTime)
    ensures games != [] ==> OrZero(AfterGames(u, games).gamesPlayed) == OrZero(u.gamesPlayed) + |games| as real
    decreases |games|
  {
    if games != [] {
      GamesOnlyRaiseRecords(u, games[..|games| - 1]);
    }
  }

  /** The statistics after several games, one after another. */
  function AfterGames(u: PlayStats, games: seq<SessionResult>): PlayStats
    requires IsWhole(u.longestSurvivalTime)
    decreases |games|
  {
    if games == [] then u
    else
      var before := AfterGames(u, games[..|games| - 1]);
      if IsWhole(before.longestSurvivalTime) then AfterGame(before, games[|games| - 1]) else before
  }

  // ---------------------------------------------------------------------
  // Leaderboard
  // ---------------------------------------------------------------------

  datatype Ranking = BySurvival | ByKills | ByBestScore

  /** The column getLeaderboard orders by: survival, kills, or the best score for any other type. */
  function RankingFor(rankingType: string): (r: Ranking)
    ensures r == BySurvival <==> rankingType == "survival"
    ensures r == ByKills <==> rankingType == "kills"
  {
    if rankingType == "survival" then BySurvival
    else if rankingType == "kills" then ByKills
    else ByBestScore
  }

  datatype LeaderRow = LeaderRow(username: string, level: int, avatar: Option<string>, bestScore: Option<real>,
                                 longestSurvivalTime: Option<real>, totalKills: Option<real>)

  datatype RankedEntry = RankedEntry(rank: int, username: string, level: int, avatar: Option<string>,
                                     score: Option<real>, survivalTime: Option<real>, kills: Option<real>)

  function Key(ranking: Ranking, row: LeaderRow): Option<real>
  {
    match ranking
    case BySurvival => row.longestSurvivalTime
    case ByKills => row.totalKills
    case ByBestScore => row.bestScore
  }

  /**
   * Whether a may come before b when PostgreSQL orders a column descending:
   * a null sorts first (NULLS FIRST is the default for DESC), values highest
   * first.
   */
  predicate NoLaterDescending(a: Option<real>, b: Option<real>)
  {
    a.None? || (b.Some? && a.value >= b.value)
  }

  /** Rows in leaderboard order: the ranking column descending, nulls first. */
  predicate Descending(ranking: Ranking, rows: seq<LeaderRow>)
  {
    forall i, j :: 0 <= i < j < |rows| ==> NoLaterDescending(Key(ranking, rows[i]), Key(ranking, rows[j]))
  }

  /**
   * getLeaderboard: the rows the database returns, in its order, numbered
   * from 1. A failed query is an error.
   */
  function GetLeaderboard(rows: seq<LeaderRow>, queryError: Option<string>): (r: Result<seq<RankedEntry>, string>)
    ensures queryError.Some? <==> r.Err?
    ensures r.Ok? ==> (|r.value| == |rows| &&
      forall i :: 0 <= i < |rows| ==> r.value[i].rank == i + 1 && r.value[i].username == rows[i].username)
    ensures r.Ok? ==> forall i :: 0 <= i < |rows| ==>
      && r.value[i].level == rows[i].level && r.value[i].avatar == rows[i].avatar
      && r.value[i].score == rows[i].bestScore && r.value[i].survivalTime == rows[i].longestSurvivalTime
      && r.value[i].kills == rows[i].totalKills
  {
    if queryError.Some? then Err(queryError.value)
    else Ok(seq(|rows|, i requires 0 <= i < |rows| =>
      RankedEntry(i + 1, rows[i].username, rows[i].level, rows[i].avatar, rows[i].bestScore,
                  rows[i].longestSurvivalTime, rows[i].totalKills)))
  }

  /**
   * Over rows in the order of the type's column, ranks are distinct, and a
   * better rank has a null in the reported column whenever a worse one
   * does, and otherwise a value no lower.
   */
  lemma RanksFollowTheColumn(rankingType: string, rows: seq<LeaderRow>, i: int, j: int)
    requires Descending(RankingFor(rankingType), rows)
    requires 0 <= i < j < |rows|
    ensures var entries := GetLeaderboard(rows, None).value;
      entries[i].rank < entries[j].rank &&
      (rankingType == "survival" ==> NoLaterDescending(entries[i].survivalTime, entries[j].survivalTime)) &&
      (rankingType == "kills" ==> NoLaterDescending(entries[i].kills, entries[j].kills)) &&
      (rankingType !in {"survival", "kills"} ==> NoLaterDescending(entries[i].score, entries[j].score))
  {
    assert NoLaterDescending(Key(RankingFor(rankingType), rows[i]), Key(RankingFor(rankingType), rows[j]));
  }
}
