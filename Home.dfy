// The home screen shown after sign-in (HomeState): UI mode switching by key,
// the in-place skill upgrade over the skill list, and the "<m>m <s>s"
// duration text.
module Home {
  import opened Common

  datatype UIMode = MainMenu | Leaderboards | Skills | Settings | Profile

  /** The keys HomeState reacts to; every other key is OtherKey. */
  datatype HomeKey = EscapeKey | F1Key | F2Key | OtherKey

  /** One skill card (the SkillEffect list, description and icon are display data). */
  datatype Skill = Skill(
    skillId: string,
    name: string,
    category: string,
    maxLevel: int,
    currentLevel: int,
    isUnlocked: bool,
    prerequisitesMet: bool,
    canUpgrade: bool,
    nextLevelCost: int,
    unlockLevel: int)

  datatype LeaderboardEntry = LeaderboardEntry(
    rank: int, username: string, level: int, score: int, survivalTime: int, kills: int)

  const DefaultLevel: int := 1
  const DefaultSkillPoints: int := 0
  const DefaultCoins: int := 50

  // ---------------------------------------------------------------------
  // Skill upgrade
  // ---------------------------------------------------------------------

  /** The upgrade loop's test: the id matches, the skill can be upgraded and the points cover its cost. */
  predicate Upgradable(s: Skill, id: string, points: int)
  {
    s.skillId == id && s.canUpgrade && points >= s.nextLevelCost
  }

  /** The index of the skill the upgrade loop stops at, if any. */
  function FirstUpgradable(skills: seq<Skill>, id: string, points: int): (r: Option<nat>)
    ensures r.Some? ==> r.value < |skills| && Upgradable(skills[r.value], id, points)
    ensures r.Some? ==> forall j :: 0 <= j < r.value ==> !Upgradable(skills[j], id, points)
    ensures r.None? ==> forall j :: 0 <= j < |skills| ==> !Upgradable(skills[j], id, points)
  {
    if skills == [] then None
    else if Upgradable(skills[0], id, points) then Some(0)
    else match FirstUpgradable(skills[1..], id, points)
      case None => None
      case Some(k) => Some(k + 1)
  }

  /** A skill after one upgrade: one level up, and either capped or 1.5 times dearer. */
  function Upgraded(s: Skill): (r: Skill)
    ensures r.currentLevel == s.currentLevel + 1
  {
    var level := s.currentLevel + 1;
    if level >= s.maxLevel then s.(currentLevel := level, canUpgrade := false)
    else s.(currentLevel := level, nextLevelCost := Trunc(s.nextLevelCost as real * 1.5))
  }

  lemma UpgradedSkill(s: Skill)
    ensures Upgraded(s).currentLevel == s.currentLevel + 1
    ensures Upgraded(s).skillId == s.skillId && Upgraded(s).maxLevel == s.maxLevel
    ensures s.currentLevel + 1 >= s.maxLevel ==>
      !Upgraded(s).canUpgrade && Upgraded(s).nextLevelCost == s.nextLevelCost
    ensures s.currentLevel + 1 < s.maxLevel ==>
      Upgraded(s).canUpgrade == s.canUpgrade &&
      (s.nextLevelCost >= 0 ==> Upgraded(s).nextLevelCost == s.nextLevelCost * 3 / 2)
  {
    if s.currentLevel + 1 < s.maxLevel && s.nextLevelCost >= 0 {
      var c := s.nextLevelCost;
      var t := Trunc(c as real * 1.5);
      assert c as real * 1.5 == (c * 3) as real / 2.0;
      assert t as real <= (c * 3) as real / 2.0 < t as real + 1.0;
      assert 2 * t <= c * 3 < 2 * t + 2;
    }
  }

  // ---------------------------------------------------------------------
  // Duration text
  // ---------------------------------------------------------------------

  /** FormatTime: whole minutes and the remaining seconds, with C++ truncating division. */
  function FormatTime(milliseconds: int): (r: string)
    ensures |r| >= 4 && r[|r| - 1] == 's' && 'm' in r
  {
    var seconds := Quot(milliseconds, 1000);
    IntToString(Quot(seconds, 60)) + "m " + IntToString(Rem(seconds, 60)) + "s"
  }

  /** The first position of c in s. */
  function IndexOf(s: string, c: char): (r: Option<nat>)
    ensures r.Some? ==> r.value < |s| && s[r.value] == c && forall j :: 0 <= j < r.value ==> s[j] != c
    ensures r.None? ==> forall j :: 0 <= j < |s| ==> s[j] != c
  {
    if s == [] then None
    else if s[0] == c then Some(0)
    else match IndexOf(s[1..], c)
      case None => None
      case Some(k) => Some(k + 1)
  }

  /** Reads "<m>m <s>s" back into its minutes and seconds. */
  function ReadTime(text: string): (r: Option<(int, int)>)
  {
    match IndexOf(text, 'm')
    case None => None
    case Some(k) =>
      if k + 2 < |text| && text[k + 1] == ' ' && text[|text| - 1] == 's' then
        match (ParseDecimal(text[..k]), ParseDecimal(text[k + 2..|text| - 1]))
        case (Some(m), Some(s)) => Some((m, s))
        case _ => None
      else None
  }

  lemma IntToStringHasNoLetterM(i: int)
    ensures forall j :: 0 <= j < |IntToString(i)| ==> IntToString(i)[j] != 'm'
  {
    var s := IntToString(i);
    if i < 0 {
      var t := NatToString(-i);
      assert s == "-" + t;
      forall j | 0 <= j < |s| ensures s[j] != 'm' {
        if j > 0 { assert s[j] == t[j - 1]; }
      }
    }
  }

  /**
   * The text holds the whole minutes and the remaining seconds of the
   * truncated second count; for a non-negative duration the seconds are
   * below 60 and minutes * 60 + seconds is the elapsed whole seconds.
   */
  lemma {:induction false} FormatTimeReadsBack(milliseconds: int)
    ensures ReadTime(FormatTime(milliseconds)).Some?
    ensures var (m, s) := ReadTime(FormatTime(milliseconds)).value;
      m * 60 + s == Quot(milliseconds, 1000) &&
      (milliseconds >= 0 ==> 0 <= s < 60 && m * 60 + s == milliseconds / 1000) &&
      (milliseconds < 0 ==> -60 < s <= 0)
  {
    var seconds := Quot(milliseconds, 1000);
    var a := IntToString(Quot(seconds, 60));
    var b := IntToString(Rem(seconds, 60));
    var text := FormatTime(milliseconds);
    assert text == a + "m " + b + "s";
    IntToStringHasNoLetterM(Quot(seconds, 60));
    assert text[|a|] == 'm';
    assert forall j :: 0 <= j < |a| ==> text[j] == a[j];
    assert IndexOf(text, 'm') == Some(|a|);
    assert text[..|a|] == a;
    assert text[|a| + 2..|text| - 1] == b;
    IntToStringRoundTrip(Quot(seconds, 60));
    IntToStringRoundTrip(Rem(seconds, 60));
  }

  // ---------------------------------------------------------------------
  // The home screen
  // ---------------------------------------------------------------------

  class HomeState {
    var currentMode: UIMode
    var scoreLeaderboard: seq<LeaderboardEntry>
    var survivalLeaderboard: seq<LeaderboardEntry>
    var killsLeaderboard: seq<LeaderboardEntry>
    var recentLeaderboard: seq<LeaderboardEntry>
    var selectedLeaderboardTab: string
    var skills: seq<Skill>
    var selectedSkillCategory: string
    var skillPoints: int
    var coins: int
    var userLevel: int
    var volume: real
    var fullscreen: bool
    var selectedGraphicsQuality: string
    /** Whether the state owns a network manager; the constructor always creates one. */
    var hasNetworkManager: bool
    var authToken: string

    predicate HasDefaultProgress()
      reads this
    {
      userLevel == DefaultLevel && skillPoints == DefaultSkillPoints && coins == DefaultCoins
    }

    predicate ListsEmpty()
      reads this
    {
      scoreLeaderboard == [] && survivalLeaderboard == [] && killsLeaderboard == [] &&
      recentLeaderboard == [] && skills == []
    }

    constructor()
      ensures currentMode == MainMenu && HasDefaultProgress() && ListsEmpty()
      ensures selectedLeaderboardTab == "scores" && selectedSkillCategory == "combat"
      ensures volume == 0.8 && !fullscreen && selectedGraphicsQuality == "medium"
      ensures hasNetworkManager && authToken == ""
    {
      currentMode := MainMenu;
      scoreLeaderboard, survivalLeaderboard, killsLeaderboard, recentLeaderboard := [], [], [], [];
      selectedLeaderboardTab := "scores";
      skills := [];
      selectedSkillCategory := "combat";
      skillPoints, coins, userLevel := DefaultSkillPoints, DefaultCoins, DefaultLevel;
      volume, fullscreen, selectedGraphicsQuality := 0.8, false, "medium";
      hasNetworkManager := true;
      authToken := "";
    }

    /** Entering the screen empties every list and reloads the user's progress. */
    method OnEnter()
      modifies this`scoreLeaderboard, this`survivalLeaderboard, this`killsLeaderboard,
               this`recentLeaderboard, this`skills, this`userLevel, this`skillPoints, this`coins
      ensures ListsEmpty()
      ensures !hasNetworkManager ==> HasDefaultProgress()
      ensures hasNetworkManager ==> unchanged(this`userLevel, this`skillPoints, this`coins)
    {
      scoreLeaderboard, survivalLeaderboard, killsLeaderboard, recentLeaderboard := [], [], [], [];
      skills := [];
      LoadUserProgress();
      LoadLeaderboards();
      LoadSkills();
    }

    method SetAuthToken(token: string)
      modifies this`authToken
      ensures authToken == token
    {
      authToken := token;
    }

    /**
     * The user's stats: without a network manager, the defaults; with one,
     * the stats request's answer is only logged, so nothing changes.
     */
    method LoadUserProgress()
      modifies this`userLevel, this`skillPoints, this`coins
      ensures !hasNetworkManager ==> HasDefaultProgress()
      ensures hasNetworkManager ==> unchanged(this`userLevel, this`skillPoints, this`coins)
    {
      if !hasNetworkManager {
        userLevel, skillPoints, coins := DefaultLevel, DefaultSkillPoints, DefaultCoins;
      }
    }

    method LoadLeaderboards()
      modifies this`scoreLeaderboard, this`survivalLeaderboard, this`killsLeaderboard, this`recentLeaderboard
      ensures scoreLeaderboard == [] && survivalLeaderboard == [] && killsLeaderboard == [] && recentLeaderboard == []
    {
      scoreLeaderboard, survivalLeaderboard, killsLeaderboard, recentLeaderboard := [], [], [], [];
    }

    method LoadSkills()
      modifies this`skills
      ensures skills == []
    {
      skills := [];
    }

    method SetUIMode(mode: UIMode)
      modifies this`currentMode
      ensures currentMode == mode
    {
      currentMode := mode;
    }

    /**
     * A key press. Escape leaves a sub-screen for the main menu, and on the
     * main menu asks the game to stop (exitGame, which the game loop turns
     * into running = false); F1 and F2 open the leaderboards and the skills.
     */
    method HandleEvent(key: HomeKey) returns (exitGame: bool)
      modifies this`currentMode
      ensures exitGame <==> key == EscapeKey && old(currentMode) == MainMenu
      ensures key == EscapeKey ==> currentMode == MainMenu
      ensures key == F1Key ==> currentMode == Leaderboards
      ensures key == F2Key ==> currentMode == Skills
      ensures key == OtherKey ==> currentMode == old(currentMode)
    {
      exitGame := false;
      match key
      case EscapeKey =>
        if currentMode != MainMenu {
          SetUIMode(MainMenu);
        } else {
          exitGame := ExitGame();
        }
      case F1Key => SetUIMode(Leaderboards);
      case F2Key => SetUIMode(Skills);
      case OtherKey =>
    }

    /** The stop request handed to the game loop. */
    method ExitGame() returns (stop: bool)
      ensures stop
    {
      stop := true;
    }

    /** The token the new play screen is given; the game loop changes to it. */
    method NavigateToPlay() returns (token: string)
      ensures token == authToken
    {
      token := authToken;
    }

    method NavigateToSettings()
      modifies this`currentMode
      ensures currentMode == Settings
    {
      SetUIMode(Settings);
    }

    method NavigateToProfile()
      modifies this`currentMode
      ensures currentMode == Profile
    {
      SetUIMode(Profile);
    }

    /**
     * Upgrades the first skill with the given id that can be upgraded and
     * whose cost the points cover, paying its cost; when none qualifies,
     * nothing changes.
     */
    method UpgradeSkill(skillId: string)
      modifies this`skills, this`skillPoints
      ensures (skills, skillPoints) == UpgradeResult(old(skills), old(skillPoints), skillId)
    {
      var i := 0;
      while i < |skills|
        invariant 0 <= i <= |skills|
        invariant skills == old(skills) && skillPoints == old(skillPoints)
        invariant forall j :: 0 <= j < i ==> !Upgradable(skills[j], skillId, skillPoints)
      {
        if Upgradable(skills[i], skillId, skillPoints) {
          skillPoints := skillPoints - skills[i].nextLevelCost;
          skills := skills[i := Upgraded(skills[i])];
          return;
        }
        i := i + 1;
      }
    }
  }

  /** The new skill list and point balance after UpgradeSkill(id). */
  function UpgradeResult(skills: seq<Skill>, points: int, id: string): (seq<Skill>, int)
  {
    match FirstUpgradable(skills, id, points)
    case None => (skills, points)
    case Some(i) => (skills[i := Upgraded(skills[i])], points - skills[i].nextLevelCost)
  }

  /**
   * An upgrade touches at most one skill, the first qualifying one, raises
   * its level by one and spends exactly its old cost, so a non-negative
   * balance stays non-negative; when no skill qualifies nothing changes.
   */
  lemma UpgradeTouchesOneSkill(skills: seq<Skill>, points: int, id: string)
    ensures var (after, left) := UpgradeResult(skills, points, id);
      |after| == |skills| &&
      (forall j :: 0 <= j < |skills| && after[j] != skills[j] ==> FirstUpgradable(skills, id, points) == Some(j)) &&
      (points >= 0 ==> left >= 0)
    ensures FirstUpgradable(skills, id, points).None? ==> UpgradeResult(skills, points, id) == (skills, points)
    ensures FirstUpgradable(skills, id, points).Some? ==>
      var i := FirstUpgradable(skills, id, points).value;
      var (after, left) := UpgradeResult(skills, points, id);
      after[i].currentLevel == skills[i].currentLevel + 1 && left == points - skills[i].nextLevelCost && left >= 0
  {
  }
}
