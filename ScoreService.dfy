// The backend's score records: a game's normal score with its personal-best
// flag, the running leaderboard and skill point totals, the combined save
// at the end of a game, and the table each leaderboard reads. Database rows
// are inputs and a failed write is an error message passed in. Numbers are
// JavaScript numbers, modelled as reals.
module ScoreService {
  import opened Common

  /** `x || d` on a number: a missing or zero number gives d. */
  function TruthyOr(v: Option<real>, d: real): (r: real)
    ensures v.Some? && v.value != 0.0 ==> r == v.value
    ensures (v.None? || v.value == 0.0) ==> r == d
  {
    if v.Some? && v.value != 0.0 then v.value else d
  }

  // ---------------------------------------------------------------------
  // Normal scores
  // ---------------------------------------------------------------------

  datatype NormalScoreData = NormalScoreData(
    score: real, survivalTime: Option<real>, kills: Option<real>, enemiesSpawned: Option<real>,
    damageDealt: Option<real>, damageTaken: Option<real>, waveReached: Option<real>)

  /** The normal_scores row written for a game. */
  datatype NormalScoreRecord = NormalScoreRecord(
    score: real, survivalTime: Option<real>, kills: real, enemiesSpawned: real, damageDealt: real,
    damageTaken: real, waveReached: real, isPersonalBest: bool)

  /**
   * A personal best: the profile has no row, or the score beats its highest
   * score (a missing highest score counting as 0).
   */
  predicate IsPersonalBest(profile: Option<Option<real>>, score: real)
  {
    profile.None? || score > OrZero(profile.value)
  }

  function NormalRecord(profile: Option<Option<real>>, d: NormalScoreData): (r: NormalScoreRecord)
    ensures r.isPersonalBest <==> IsPersonalBest(profile, d.score)
    ensures d.kills.None? ==> r.kills == 0.0
    ensures d.enemiesSpawned.None? ==> r.enemiesSpawned == 0.0
    ensures d.damageDealt.None? ==> r.damageDealt == 0.0
    ensures d.damageTaken.None? ==> r.damageTaken == 0.0
    ensures d.waveReached.None? ==> r.waveReached == 1.0
  {
    NormalScoreRecord(d.score, d.survivalTime, TruthyOr(d.kills, 0.0), TruthyOr(d.enemiesSpawned, 0.0),
      TruthyOr(d.damageDealt, 0.0), TruthyOr(d.damageTaken, 0.0), TruthyOr(d.waveReached, 1.0),
      IsPersonalBest(profile, d.score))
  }

  datatype NormalSaved = NormalSaved(record: NormalScoreRecord, highestScore: Option<real>)

  /**
   * saveNormalScore: the score row, then the profile's highest score raised
   * to the score when it is a personal best. `profile` is the profile's
   * highest_score column, None when the profile has no row.
   */
  function SaveNormalScore(profile: Option<Option<real>>, d: NormalScoreData, insertError: Option<string>)
    : (r: Result<NormalSaved, string>)
    ensures insertError.Some? ==> r == Err("Failed to save normal score: " + insertError.value)
    ensures r.Ok? ==> r.value.record == NormalRecord(profile, d)
    ensures r.Ok? && profile.Some? ==>
      (OrZero(r.value.highestScore) >= OrZero(profile.value) &&
       (r.value.highestScore == profile.value <==> !r.value.record.isPersonalBest))
  {
    if insertError.Some? then Err("Failed to save normal score: " + insertError.value)
    else
      var record := NormalRecord(profile, d);
      Ok(NormalSaved(record, if record.isPersonalBest && profile.Some? then Some(d.score) else profile.GetOr(None)))
  }

  /**
   * The highest score is the best score saved so far: after a saved
   * personal best it is that score, and a later score is a personal best
   * exactly when it beats it.
   */
  lemma PersonalBestIsTheRecord(highest: Option<real>, first: NormalScoreData, second: NormalScoreData)
    requires first.score > OrZero(highest)
    ensures var r := SaveNormalScore(Some(highest), first, None);
      r.Ok? && r.value.record.isPersonalBest && r.value.highestScore == Some(first.score) &&
      (NormalRecord(Some(r.value.highestScore), second).isPersonalBest <==> second.score > first.score)
  {
  }

  /** Without a profile row every score is a personal best, even a negative one. */
  lemma NoProfileAlwaysBest(d: NormalScoreData)
    ensures NormalRecord(None, d).isPersonalBest
  {
  }

  // ---------------------------------------------------------------------
  // Leaderboard and skill points
  // ---------------------------------------------------------------------

  datatype PointsData = PointsData(pointsEarnedThisSession: real, survivalTime: Option<real>)

  /** A leaderboard_scores row. */
  datatype LeaderboardRecord = LeaderboardRecord(
    leaderboardPoints: real, pointsEarnedThisSession: real, totalAccumulatedPoints: real,
    survivalTime: Option<real>, earningRate: real, sessionStart: string, sessionEnd: string)

  /** A skill_scores row. */
  datatype SkillRecord = SkillRecord(
    skillPoints: real, pointsEarnedThisSession: real, totalAccumulatedPoints: real,
    pointsSpent: real, pointsAvailable: real, survivalTime: Option<real>, earningRate: real,
    sessionStart: string, sessionEnd: string)

  /** The running total after a session: the current total (missing counts as 0) plus the session's points. */
  function NewTotal(current: Option<real>, earned: real): (r: real)
    ensures r - earned == OrZero(current)
  {
    OrZero(current) + earned
  }

  /**
   * saveLeaderboardScore: a row with the new running total, which also
   * becomes the profile's current leaderboard points. `current` is the
   * profile's current_leaderboard_points, None without a row or a value.
   */
  function SaveLeaderboardScore(current: Option<real>, d: PointsData, start: string, end: string,
                                insertError: Option<string>): (r: Result<(LeaderboardRecord, real), string>)
    ensures insertError.Some? ==> r == Err("Failed to save leaderboard score: " + insertError.value)
    ensures r.Ok? ==> (r.value.1 == NewTotal(current, d.pointsEarnedThisSession) &&
      r.value.0.totalAccumulatedPoints == r.value.1 && r.value.0.earningRate == 2.0 &&
      r.value.0.leaderboardPoints == d.pointsEarnedThisSession)
  {
    if insertError.Some? then Err("Failed to save leaderboard score: " + insertError.value)
    else
      var total := NewTotal(current, d.pointsEarnedThisSession);
      Ok((LeaderboardRecord(d.pointsEarnedThisSession, d.pointsEarnedThisSession, total, d.survivalTime, 2.0, start, end),
          total))
  }

  /**
   * saveSkillScore: a row with the new running total, nothing spent and the
   * whole total available; the total also becomes the profile's current
   * skill points.
   */
  function SaveSkillScore(current: Option<real>, d: PointsData, start: string, end: string,
                          insertError: Option<string>): (r: Result<(SkillRecord, real), string>)
    ensures insertError.Some? ==> r == Err("Failed to save skill score: " + insertError.value)
    ensures r.Ok? ==> (r.value.1 == NewTotal(current, d.pointsEarnedThisSession) &&
      r.value.0.totalAccumulatedPoints == r.value.1 && r.value.0.pointsSpent == 0.0 &&
      r.value.0.pointsAvailable == r.value.1 && r.value.0.earningRate == 1.0)
  {
    if insertError.Some? then Err("Failed to save skill score: " + insertError.value)
    else
      var total := NewTotal(current, d.pointsEarnedThisSession);
      Ok((SkillRecord(d.pointsEarnedThisSession, d.pointsEarnedThisSession, total, 0.0, total, d.survivalTime,
                      1.0, start, end), total))
  }

  /** The total after saving several sessions' points in turn, each save reading the previous total. */
  function TotalAfter(current: Option<real>, earned: seq<real>): real
  {
    if earned == [] then OrZero(current)
    else NewTotal(Some(TotalAfter(current, earned[..|earned| - 1])), earned[|earned| - 1])
  }

  function Sum(xs: seq<real>): real
  {
    if xs == [] then 0.0 else Sum(xs[..|xs| - 1]) + xs[|xs| - 1]
  }

  /** The running total is the starting total plus every session's points. */
  lemma {:induction false} TotalIsTheSum(current: Option<real>, earned: seq<real>)
    ensures TotalAfter(current, earned) == OrZero(current) + Sum(earned)
  {
    if earned != [] {
      TotalIsTheSum(current, earned[..|earned| - 1]);
    }
  }

  // ---------------------------------------------------------------------
  // Saving a game's three scores
  // ---------------------------------------------------------------------

  datatype Saved = Saved(normal: NormalSaved, leaderboard: (LeaderboardRecord, real), skill: (SkillRecord, real))

  const SomeScoresFailed := "Failed to save some scores: "

  /** The failures saveAllScores reports, labelled, in the fixed order normal, leaderboard, skill. */
  function Failures(normal: Result<NormalSaved, string>, leaderboard: Result<(LeaderboardRecord, real), string>,
                    skill: Result<(SkillRecord, real), string>): (r: seq<string>)
    ensures |r| == (if normal.Err? then 1 else 0) + (if leaderboard.Err? then 1 else 0) + (if skill.Err? then 1 else 0)
    ensures normal.Err? ==> r[0] == "Normal Score: " + normal.error
    ensures skill.Err? ==> r[|r| - 1] == "Skill Score: " + skill.error
    ensures leaderboard.Err? ==> r[if normal.Err? then 1 else 0] == "Leaderboard Score: " + leaderboard.error
  {
    (if normal.Err? then ["Normal Score: " + normal.error] else [])
    + (if leaderboard.Err? then ["Leaderboard Score: " + leaderboard.error] else [])
    + (if skill.Err? then ["Skill Score: " + skill.error] else [])
  }

  /**
   * saveAllScores: the three saves' outcomes combined; it succeeds exactly
   * when all three did, and otherwise reports every failure, in order, in
   * one message.
   */
  method SaveAllScores(normal: Result<NormalSaved, string>, leaderboard: Result<(LeaderboardRecord, real), string>,
                       skill: Result<(SkillRecord, real), string>) returns (r: Result<Saved, string>)
    ensures r.Ok? <==> normal.Ok? && leaderboard.Ok? && skill.Ok?
    ensures r.Ok? ==> r.value == Saved(normal.value, leaderboard.value, skill.value)
    ensures r.Err? ==> r.error == SomeScoresFailed + Join(Failures(normal, leaderboard, skill), ", ")
  {
    var errors: seq<string> := [];
    if normal.Err? {
      errors := errors + ["Normal Score: " + normal.error];
    }
    if leaderboard.Err? {
      errors := errors + ["Leaderboard Score: " + leaderboard.error];
    }
    if skill.Err? {
      errors := errors + ["Skill Score: " + skill.error];
    }
    assert errors == Failures(normal, leaderboard, skill);
    if |errors| > 0 {
      return Err(SomeScoresFailed + Join(errors, ", "));
    }
    return Ok(Saved(normal.value, leaderboard.value, skill.value));
  }

  /** A single failure is reported alone, with its label. */
  lemma OneFailureMessage(normal: NormalSaved, leaderboard: (LeaderboardRecord, real), message: string)
    ensures Join(Failures(Ok(normal), Ok(leaderboard), Err(message)), ", ") == "Skill Score: " + message
  {
  }

  // ---------------------------------------------------------------------
  // Reading totals and leaderboards
  // ---------------------------------------------------------------------

  datatype Totals = Totals(leaderboardPoints: real, skillPoints: real, highestScore: real)

  datatype ProfileTotals = ProfileTotals(currentLeaderboardPoints: Option<real>, currentSkillPoints: Option<real>,
                                         highestScore: Option<real>)

  /** getUserCurrentTotals: the three totals with missing ones as 0; a failed read is an error. */
  function UserCurrentTotals(row: Result<ProfileTotals, string>): (r: Result<Totals, string>)
    ensures row.Err? ==> r == Err(row.error)
    ensures row.Ok? ==> (r.Ok? && r.value.leaderboardPoints == OrZero(row.value.currentLeaderboardPoints) &&
      r.value.skillPoints == OrZero(row.value.currentSkillPoints) && r.value.highestScore == OrZero(row.value.highestScore))
  {
    match row
    case Err(e) => Err(e)
    case Ok(p) => Ok(Totals(OrZero(p.currentLeaderboardPoints), OrZero(p.currentSkillPoints), OrZero(p.highestScore)))
  }

  datatype Board = Board(table: string, orderColumn: string)

  /**
   * The table and column getLeaderboards reads: the leaderboard and skill
   * tables by accumulated points, and normal_scores by score for every
   * other type.
   */
  function BoardFor(boardType: string): (r: Board)
    ensures boardType == "leaderboard" ==> r == Board("leaderboard_scores", "total_accumulated_points")
    ensures boardType == "skill" ==> r == Board("skill_scores", "total_accumulated_points")
    ensures boardType !in {"leaderboard", "skill"} ==> r == Board("normal_scores", "score")
  {
    match boardType
    case "leaderboard" => Board("leaderboard_scores", "total_accumulated_points")
    case "skill" => Board("skill_scores", "total_accumulated_points")
    case _ => Board("normal_scores", "score")
  }

  /** Distinct types read distinct tables exactly when both are among the three known types. */
  lemma BoardsAreDistinct(a: string, b: string)
    requires a in {"normal", "leaderboard", "skill"} && b in {"normal", "leaderboard", "skill"}
    ensures BoardFor(a) == BoardFor(b) <==> a == b
  {
  }
}
