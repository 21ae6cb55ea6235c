// The public leaderboard routes (/api/leaderboard/...): the row limit and
// the timeframe each handler derives from the query string, the call it
// makes for the rows, and the board it answers with.
module LeaderboardRoutes {
  import opened Common
  import opened Api

  // ---------------------------------------------------------------------
  // Query parameters
  // ---------------------------------------------------------------------

  /** parseInt(req.query.limit): an absent parameter reads as NaN (None). */
  function ParsedLimit(query: Option<string>): Option<int>
  {
    if query.Some? then ParseIntJs(query.value) else None
  }

  /** `Math.min(parseInt(limit) || fallback, max)`. */
  function ClampLimit(query: Option<string>, fallback: int, max: int): (n: int)
    ensures n <= max
  {
    var parsed := ParsedLimit(query);
    var wanted := if parsed.Some? && parsed.value != 0 then parsed.value else fallback;
    if wanted < max then wanted else max
  }

  /**
   * A limit written as an integer is taken as it is, capped at the maximum;
   * 0 and text that is no number give the fallback; nothing raises a
   * negative limit.
   */
  lemma LimitFromQuery(k: int, fallback: int, max: int)
    ensures ClampLimit(Some(IntToString(k)), fallback, max) == (if k == 0 then Min(fallback, max) else Min(k, max))
    ensures ClampLimit(None, fallback, max) == Min(fallback, max)
    ensures k < 0 && k < max ==> ClampLimit(Some(IntToString(k)), fallback, max) == k
  {
    ParseIntJsOfIntToString(k);
  }

  function Min(a: int, b: int): int { if a < b then a else b }

  /** `req.query.timeframe || 'all'`. */
  function Timeframe(query: Option<string>): (t: string)
    ensures t != ""
    ensures query.Some? && query.value != "" ==> t == query.value
  {
    if query.Some? && query.value != "" then query.value else "all"
  }

  // ---------------------------------------------------------------------
  // The calls for rows
  // ---------------------------------------------------------------------

  /** getLeaderboard(kind, limit, timeframe). */
  datatype Call = Call(kind: string, limit: int, timeframe: string)

  function ScoresCall(limit: Option<string>, timeframe: Option<string>): Call
  {
    Call("score", ClampLimit(limit, 50, 100), Timeframe(timeframe))
  }

  function PointsCall(limit: Option<string>): Call
  {
    Call("leaderboard_points", ClampLimit(limit, 50, 100), "all")
  }

  function SurvivalCall(limit: Option<string>, timeframe: Option<string>): Call
  {
    Call("survival", ClampLimit(limit, 50, 100), Timeframe(timeframe))
  }

  /** /all asks for three boards over all time, with the smaller limit. */
  function AllCalls(limit: Option<string>): seq<Call>
  {
    var n := ClampLimit(limit, 10, 50);
    [Call("score", n, "all"), Call("leaderboard_points", n, "all"), Call("survival", n, "all")]
  }

  /** /recent always asks for the daily board. */
  function RecentCall(limit: Option<string>): Call
  {
    Call("score", ClampLimit(limit, 20, 50), "daily")
  }

  /**
   * The calls the routes make: scores, points and survival at most 100 rows
   * (50 by default), /all at most 50 (10 by default), /recent at most 50
   * (20 by default) of the daily board; a timeframe is 'all' unless the
   * scores or survival query names one.
   */
  lemma CallsFollowTheQuery(limit: Option<string>, timeframe: Option<string>)
    ensures ScoresCall(limit, timeframe).limit <= 100 && SurvivalCall(limit, timeframe).limit <= 100
    ensures PointsCall(limit).limit <= 100 && PointsCall(limit).timeframe == "all"
    ensures forall c :: c in AllCalls(limit) ==> c.limit <= 50 && c.timeframe == "all"
    ensures RecentCall(limit).limit <= 50 && RecentCall(limit).timeframe == "daily"
    ensures ScoresCall(None, None) == Call("score", 50, "all")
    ensures SurvivalCall(None, None) == Call("survival", 50, "all")
    ensures AllCalls(None)[0].limit == 10 && RecentCall(None).limit == 20
    ensures ScoresCall(limit, timeframe).timeframe == SurvivalCall(limit, timeframe).timeframe == Timeframe(timeframe)
  {
  }

  // ---------------------------------------------------------------------
  // The replies
  // ---------------------------------------------------------------------

  /** `data` of a one-board reply. */
  datatype BoardView<T> = BoardView(leaderboard: seq<T>, title: string, description: string,
                                    timeframe: string, totalEntries: int)

  /**
   * A one-board reply: the rows the call returned, its title and
   * description, the timeframe it shows and the number of rows; an error
   * from the call goes to the error handler.
   */
  function Answer<T>(title: string, description: string, shown: string,
                     rows: Result<seq<T>, string>): (r: Reply<BoardView<T>>)
    ensures rows.Ok? <==> r.Success?
    ensures rows.Ok? ==> r.status == 200 && r.data.leaderboard == rows.value
                         && r.data.totalEntries == |rows.value| && r.data.timeframe == shown
    ensures rows.Err? ==> r == Forwarded(rows.error)
  {
    match rows
    case Ok(v) => Success(200, BoardView(v, title, description, shown, |v|))
    case Err(m) => Forwarded(m)
  }

  /** What the handlers meet when they call gameSessionService.getLeaderboard. */
  const NotAFunction := "gameSessionService.getLeaderboard is not a function"

  /**
   * The handlers as written: the session service has getLeaderboards but
   * no getLeaderboard, so the call throws a TypeError before any row is
   * read, whatever the query.
   */
  function BoardAsWritten<T>(call: Call): (r: Reply<BoardView<T>>)
    ensures !r.Success?
  {
    Forwarded(NotAFunction)
  }

  /** No query gets a board from the routes as written. */
  lemma RoutesAsWrittenNeverAnswer<T>(limit: Option<string>, timeframe: Option<string>)
    ensures BoardAsWritten<T>(ScoresCall(limit, timeframe)) == Forwarded(NotAFunction)
    ensures BoardAsWritten<T>(PointsCall(limit)) == Forwarded(NotAFunction)
    ensures BoardAsWritten<T>(SurvivalCall(limit, timeframe)) == Forwarded(NotAFunction)
    ensures BoardAsWritten<T>(RecentCall(limit)) == Forwarded(NotAFunction)
  {
  }

  /**
   * The routes as intended: `rows` is what a leaderboard lookup answers for
   * the route's call.
   */
  function Scores<T>(timeframe: Option<string>, rows: Result<seq<T>, string>): (r: Reply<BoardView<T>>)
    ensures r.Success? ==> r.data.timeframe == Timeframe(timeframe) && r.data.totalEntries == |r.data.leaderboard|
  {
    Answer("Game Scores", "Highest individual game session scores", Timeframe(timeframe), rows)
  }

  function Points<T>(rows: Result<seq<T>, string>): (r: Reply<BoardView<T>>)
    ensures r.Success? ==> r.data.timeframe == "all" && r.data.totalEntries == |r.data.leaderboard|
  {
    Answer("Leaderboard Points", "Players ranked by accumulated leaderboard points", "all", rows)
  }

  function Survival<T>(timeframe: Option<string>, rows: Result<seq<T>, string>): (r: Reply<BoardView<T>>)
    ensures r.Success? ==> r.data.timeframe == Timeframe(timeframe) && r.data.totalEntries == |r.data.leaderboard|
  {
    Answer("Survival Time", "Longest survival times in seconds", Timeframe(timeframe), rows)
  }

  function Recent<T>(rows: Result<seq<T>, string>): (r: Reply<BoardView<T>>)
    ensures r.Success? ==> r.data.timeframe == "Last 24 hours" && r.data.totalEntries == |r.data.leaderboard|
  {
    Answer("Recent Scores", "Recent high scores from the last 24 hours", "Last 24 hours", rows)
  }

  /** One board of the /all reply. */
  datatype Section<T> = Section(leaderboard: seq<T>, title: string, description: string)

  datatype AllView<T> = AllView(gameScores: Section<T>, leaderboardPoints: Section<T>, survivalTimes: Section<T>)

  /**
   * /all waits for the three lookups of AllCalls; any one failing sends the
   * request to the error handler.
   */
  function All<T>(scores: Result<seq<T>, string>, points: Result<seq<T>, string>,
                  survival: Result<seq<T>, string>): (r: Reply<AllView<T>>)
    ensures r.Success? <==> scores.Ok? && points.Ok? && survival.Ok?
    ensures r.Success? ==> r.data.gameScores.leaderboard == scores.value
                           && r.data.leaderboardPoints.leaderboard == points.value
                           && r.data.survivalTimes.leaderboard == survival.value
  {
    if scores.Err? then Forwarded(scores.error)
    else if points.Err? then Forwarded(points.error)
    else if survival.Err? then Forwarded(survival.error)
    else Success(200, AllView(
      Section(scores.value, "Game Scores", "Highest individual game session scores"),
      Section(points.value, "Leaderboard Points", "Players ranked by accumulated leaderboard points"),
      Section(survival.value, "Survival Time", "Longest survival times")))
  }

  /**
   * /all as written: the first of its three calls to the missing
   * getLeaderboard throws before Promise.all is reached, so the request goes
   * to the error handler whatever the limit.
   */
  function AllAsWritten<T>(): (r: Reply<AllView<T>>)
    ensures !r.Success?
  {
    All<T>(Err(NotAFunction), Err(NotAFunction), Err(NotAFunction))
  }

  /** No query gets a board from /all as written either. */
  lemma AllAsWrittenNeverAnswers<T>()
    ensures AllAsWritten<T>() == Forwarded(NotAFunction)
  {
  }

  /**
   * Where the routes as written always fail, the intended routes answer
   * every successful lookup with its rows.
   */
  lemma IntendedRoutesAnswer<T>(timeframe: Option<string>, rows: seq<T>)
    ensures Scores(timeframe, Ok(rows)) == Success(200, BoardView(rows, "Game Scores",
              "Highest individual game session scores", Timeframe(timeframe), |rows|))
    ensures Recent(Ok(rows)).Success? && Recent(Ok(rows)).data.leaderboard == rows
    ensures BoardAsWritten<T>(ScoresCall(None, timeframe)) != Scores(timeframe, Ok(rows))
  {
  }
}
