// The backend's skill rules: what the next level of a skill costs, whether a
// user may buy it, what buying it records, and the grouping of the skill
// catalogue by category. Database rows are inputs; a query that the
// service checks for an error is a Result, whose Err is the message the
// service throws.
module SkillService {
  import opened Common

  datatype Effect = Effect(effectType: string, baseValue: real, perLevelIncrease: real, isPercentage: bool)

  /** A prerequisite: the skill (by its skill_id) and the level it must have reached. */
  datatype Prerequisite = Prerequisite(requiredSkillId: string, requiredLevel: int)

  /** A row of the skills table with its effects and prerequisites. */
  datatype SkillRow = SkillRow(
    id: int,
    skillId: string,
    name: string,
    description: string,
    category: string,
    icon: string,
    maxLevel: int,
    baseCost: real,
    costMultiplier: real,
    unlockLevel: int,
    effects: seq<Effect>,
    prerequisites: seq<Prerequisite>)

  /** The user columns the skill rules select: skill_points and level (and no others). */
  datatype UserStats = UserStats(skillPoints: int, level: int)

  /** A user_skills row, with the skill_id of the skill it refers to. */
  datatype UserSkill = UserSkill(skillId: string, level: nat)

  // ---------------------------------------------------------------------
  // Cost and eligibility
  // ---------------------------------------------------------------------

  /** The price of going from currentLevel to the next level: floor(base_cost * cost_multiplier^currentLevel). */
  function UpgradeCost(skill: SkillRow, currentLevel: nat): (cost: int)
    ensures cost as real <= skill.baseCost * Pow(skill.costMultiplier, currentLevel) < cost as real + 1.0
    ensures currentLevel == 0 ==> cost == skill.baseCost.Floor
  {
    (skill.baseCost * Pow(skill.costMultiplier, currentLevel)).Floor
  }

  lemma {:induction false} PowAtLeastOne(x: real, n: nat)
    requires x >= 1.0
    ensures Pow(x, n) >= 1.0
  {
    if n > 0 {
      PowAtLeastOne(x, n - 1);
    }
  }

  /**
   * The first level costs the base cost, and with a multiplier of at least
   * one and a non-negative base cost every level costs at least as much as
   * the one before.
   */
  lemma UpgradeCostGrows(skill: SkillRow, level: nat)
    ensures UpgradeCost(skill, 0) == skill.baseCost.Floor
    ensures skill.costMultiplier >= 1.0 && skill.baseCost >= 0.0 ==>
      0 <= UpgradeCost(skill, level) <= UpgradeCost(skill, level + 1)
  {
    if skill.costMultiplier >= 1.0 && skill.baseCost >= 0.0 {
      var m, b := skill.costMultiplier, skill.baseCost;
      var p := Pow(m, level);
      PowAtLeastOne(m, level);
      assert Pow(m, level + 1) == m * p;
      ScaledGrows(b, p, m);
      FloorMonotone(0.0, b * p);
      FloorMonotone(b * p, b * (m * p));
    }
  }

  /** Scaling a non-negative amount by a factor of at least one does not shrink its product with a non-negative base. */
  lemma ScaledGrows(b: real, p: real, m: real)
    requires b >= 0.0 && p >= 1.0 && m >= 1.0
    ensures 0.0 <= b * p <= b * (m * p)
  {
    assert m * p >= p;
  }

  lemma FloorMonotone(x: real, y: real)
    requires x <= y
    ensures x.Floor <= y.Floor
  {
  }

  /** A skill's recorded level for the user, 0 when there is none (`map.get(id) || 0`). */
  function LevelIn(levels: map<string, nat>, skillId: string): nat
  {
    if skillId in levels then levels[skillId] else 0
  }

  predicate PrerequisitesMet(skill: SkillRow, levels: map<string, nat>)
  {
    forall i :: 0 <= i < |skill.prerequisites| ==>
      LevelIn(levels, skill.prerequisites[i].requiredSkillId) >= skill.prerequisites[i].requiredLevel
  }

  /** The four conditions of canUpgradeSkill. */
  predicate Eligible(skill: SkillRow, currentLevel: nat, points: int, userLevel: int, levels: map<string, nat>)
  {
    currentLevel < skill.maxLevel
    && points >= UpgradeCost(skill, currentLevel)
    && userLevel >= skill.unlockLevel
    && PrerequisitesMet(skill, levels)
  }

  /**
   * canUpgradeSkill: checks the level cap, the price, the user's level and
   * then each prerequisite in turn, refusing at the first that fails.
   */
  method CanUpgradeSkill(skill: SkillRow, currentLevel: nat, points: int, userLevel: int, levels: map<string, nat>)
    returns (ok: bool)
    ensures ok <==> Eligible(skill, currentLevel, points, userLevel, levels)
    ensures currentLevel >= skill.maxLevel ==> !ok
    ensures points < UpgradeCost(skill, currentLevel) ==> !ok
    ensures userLevel < skill.unlockLevel ==> !ok
  {
    if currentLevel >= skill.maxLevel {
      return false;
    }
    var cost := UpgradeCost(skill, currentLevel);
    if points < cost {
      return false;
    }
    if userLevel < skill.unlockLevel {
      return false;
    }
    var i := 0;
    while i < |skill.prerequisites|
      invariant 0 <= i <= |skill.prerequisites|
      invariant forall j :: 0 <= j < i ==>
        LevelIn(levels, skill.prerequisites[j].requiredSkillId) >= skill.prerequisites[j].requiredLevel
    {
      var p := skill.prerequisites[i];
      if LevelIn(levels, p.requiredSkillId) < p.requiredLevel {
        return false;
      }
      i := i + 1;
    }
    return true;
  }

  // ---------------------------------------------------------------------
  // The user's skill levels
  // ---------------------------------------------------------------------

  /** The map filled by `userSkillMap.set(skill_id, level)` over the rows in order. */
  function LevelMap(rows: seq<UserSkill>): map<string, nat>
  {
    if rows == [] then map[]
    else LevelMap(rows[..|rows| - 1])[rows[|rows| - 1].skillId := rows[|rows| - 1].level]
  }

  /** Every row's skill is in the map, and it maps to the level of the last row naming it. */
  lemma {:induction false} LevelMapLastWins(rows: seq<UserSkill>, i: nat)
    requires i < |rows|
    requires forall j :: i < j < |rows| ==> rows[j].skillId != rows[i].skillId
    ensures rows[i].skillId in LevelMap(rows) && LevelMap(rows)[rows[i].skillId] == rows[i].level
  {
    if i < |rows| - 1 {
      LevelMapLastWins(rows[..|rows| - 1], i);
    }
  }

  /** Only skills that have a row are in the map. */
  lemma {:induction false} LevelMapKeys(rows: seq<UserSkill>, skillId: string)
    ensures skillId in LevelMap(rows) <==> exists j :: 0 <= j < |rows| && rows[j].skillId == skillId
  {
    if rows != [] {
      var init := rows[..|rows| - 1];
      LevelMapKeys(init, skillId);
      if skillId in LevelMap(init) {
        var j :| 0 <= j < |init| && init[j].skillId == skillId;
        assert rows[j].skillId == skillId;
      }
    }
  }

  method BuildLevelMap(rows: seq<UserSkill>) returns (levels: map<string, nat>)
    ensures levels == LevelMap(rows)
  {
    levels := map[];
    var i := 0;
    while i < |rows|
      invariant 0 <= i <= |rows|
      invariant levels == LevelMap(rows[..i])
    {
      assert rows[..i + 1][..i] == rows[..i];
      levels := levels[rows[i].skillId := rows[i].level];
      i := i + 1;
    }
    assert rows[..i] == rows;
  }

  // ---------------------------------------------------------------------
  // Skills with upgrade information
  // ---------------------------------------------------------------------

  datatype SkillWithInfo = SkillWithInfo(skill: SkillRow, currentLevel: nat, canUpgrade: bool, upgradeCost: int, isMaxLevel: bool)

  function InfoFor(skill: SkillRow, levels: map<string, nat>, stats: UserStats): (r: SkillWithInfo)
  {
    var level := LevelIn(levels, skill.skillId);
    SkillWithInfo(skill, level, Eligible(skill, level, stats.skillPoints, stats.level, levels),
      UpgradeCost(skill, level), level >= skill.maxLevel)
  }

  /** What getUserSkillsWithAvailableUpgrades returns: the annotated catalogue and the stats row it used. */
  datatype UserSkillsResult = UserSkillsResult(skills: seq<SkillWithInfo>, userStats: UserStats)

  /**
   * getUserSkillsWithAvailableUpgrades: every skill of the catalogue, in
   * order, with the user's level, whether it can be bought now, its price
   * and whether it is maxed out, together with the stats row. The three
   * queries run together; a failed catalogue query, a failed query of the
   * user's skills and a failed stats query are each the error.
   */
  method SkillsWithUpgrades(allSkills: Result<seq<SkillRow>, string>, userSkills: Result<seq<UserSkill>, string>,
                            stats: Result<UserStats, string>)
    returns (r: Result<UserSkillsResult, string>)
    ensures allSkills.Err? ==> r == Err(allSkills.error)
    ensures allSkills.Ok? && userSkills.Err? ==> r == Err(userSkills.error)
    ensures allSkills.Ok? && userSkills.Ok? && stats.Err? ==> r == Err(stats.error)
    ensures r.Ok? <==> allSkills.Ok? && userSkills.Ok? && stats.Ok?
    ensures r.Ok? ==> r.value.userStats == stats.value && |r.value.skills| == |allSkills.value|
    ensures r.Ok? ==> forall i :: 0 <= i < |allSkills.value| ==>
      r.value.skills[i] == InfoFor(allSkills.value[i], LevelMap(userSkills.value), stats.value)
  {
    if allSkills.Err? {
      return Err(allSkills.error);
    }
    if userSkills.Err? {
      return Err(userSkills.error);
    }
    if stats.Err? {
      return Err(stats.error);
    }
    var catalogue := allSkills.value;
    var levels := BuildLevelMap(userSkills.value);
    var out: seq<SkillWithInfo> := [];
    var i := 0;
    while i < |catalogue|
      invariant 0 <= i <= |catalogue| && |out| == i
      invariant forall j :: 0 <= j < i ==> out[j] == InfoFor(catalogue[j], levels, stats.value)
    {
      var skill := catalogue[i];
      var level := LevelIn(levels, skill.skillId);
      var can := CanUpgradeSkill(skill, level, stats.value.skillPoints, stats.value.level, levels);
      out := out + [SkillWithInfo(skill, level, can, UpgradeCost(skill, level), level >= skill.maxLevel)];
      i := i + 1;
    }
    return Ok(UserSkillsResult(out, stats.value));
  }

  /** A maxed-out skill is never offered for upgrade. */
  lemma MaxedSkillNotOffered(skill: SkillRow, levels: map<string, nat>, stats: UserStats)
    ensures InfoFor(skill, levels, stats).isMaxLevel ==> !InfoFor(skill, levels, stats).canUpgrade
    ensures InfoFor(skill, levels, stats).canUpgrade ==> stats.skillPoints >= InfoFor(skill, levels, stats).upgradeCost
  {
  }

  // ---------------------------------------------------------------------
  // Buying a level
  // ---------------------------------------------------------------------

  /** What upgradeSkill writes and returns. */
  datatype Upgrade = Upgrade(
    skill: SkillRow,
    newLevel: int,
    /** A new user_skills row (first level) rather than an update of the existing one. */
    inserted: bool,
    remainingSkillPoints: int,
    upgradeCost: int)

  const SkillNotFound := "Skill not found"
  const UserNotFound := "User not found"
  const CannotUpgrade := "Cannot upgrade this skill"

  /**
   * The outcome of upgradeSkill, given the skill lookup (Ok(None) when no
   * skill has that skill_id, Err for any other query error), the user's
   * current row for it, the user's stats row, the query of their skill rows,
   * and the errors (if any) of the two writes. It succeeds exactly when
   * every lookup found its row, the user may buy the level and both writes
   * went through; a query error is reported before anything that comes
   * after it.
   */
  function UpgradeOutcome(skill: Result<Option<SkillRow>, string>, levelRow: Option<nat>, stats: Option<UserStats>,
                          userSkills: Result<seq<UserSkill>, string>, skillWriteError: Option<string>,
                          userWriteError: Option<string>): (r: Result<Upgrade, string>)
    ensures skill.Err? ==> r == Err(skill.error)
    ensures skill == Ok(None) ==> r == Err(SkillNotFound)
    ensures skill.Ok? && skill.value.Some? && stats.None? ==> r == Err(UserNotFound)
    ensures skill.Ok? && skill.value.Some? && stats.Some? && userSkills.Err? ==> r == Err(userSkills.error)
    ensures r.Ok? <==>
      skill.Ok? && skill.value.Some? && stats.Some? && userSkills.Ok? &&
      Eligible(skill.value.value, levelRow.GetOr(0), stats.value.skillPoints, stats.value.level, LevelMap(userSkills.value)) &&
      skillWriteError.None? && userWriteError.None?
    ensures r.Ok? ==> r.value.skill == skill.value.value
  {
    match skill
    case Err(message) => Err(message)
    case Ok(None) => Err(SkillNotFound)
    case Ok(Some(found)) =>
      if stats.None? then Err(UserNotFound)
      else if userSkills.Err? then Err(userSkills.error)
      else
        var level := levelRow.GetOr(0);
        var levels := LevelMap(userSkills.value);
        if !Eligible(found, level, stats.value.skillPoints, stats.value.level, levels) then Err(CannotUpgrade)
        else if skillWriteError.Some? then Err(skillWriteError.value)
        else if userWriteError.Some? then Err(userWriteError.value)
        else
          var cost := UpgradeCost(found, level);
          Ok(Upgrade(found, level + 1, level == 0, stats.value.skillPoints - cost, cost))
  }

  /** upgradeSkill: the checks in the order the service makes them, then the two writes. */
  method UpgradeSkill(skill: Result<Option<SkillRow>, string>, levelRow: Option<nat>, stats: Option<UserStats>,
                      userSkills: Result<seq<UserSkill>, string>, skillWriteError: Option<string>,
                      userWriteError: Option<string>)
    returns (r: Result<Upgrade, string>)
    ensures r == UpgradeOutcome(skill, levelRow, stats, userSkills, skillWriteError, userWriteError)
  {
    if skill.Err? {
      return Err(skill.error);
    }
    if skill.value.None? {
      return Err(SkillNotFound);
    }
    var found := skill.value.value;
    var level := levelRow.GetOr(0);
    if stats.None? {
      return Err(UserNotFound);
    }
    if userSkills.Err? {
      return Err(userSkills.error);
    }
    var levels := BuildLevelMap(userSkills.value);
    var ok := CanUpgradeSkill(found, level, stats.value.skillPoints, stats.value.level, levels);
    if !ok {
      return Err(CannotUpgrade);
    }
    var cost := UpgradeCost(found, level);
    if skillWriteError.Some? {
      return Err(skillWriteError.value);
    }
    if userWriteError.Some? {
      return Err(userWriteError.value);
    }
    return Ok(Upgrade(found, level + 1, level == 0, stats.value.skillPoints - cost, cost));
  }

  /**
   * A found skill and user are refused exactly when the user may not buy
   * the level; a purchase raises the level by one, charges the price of
   * that level, never leaves the balance negative, and inserts a row only
   * for the first level.
   */
  lemma UpgradeChargesThePrice(skill: SkillRow, levelRow: Option<nat>, stats: UserStats, userSkills: seq<UserSkill>)
    ensures var level := levelRow.GetOr(0);
      var r := UpgradeOutcome(Ok(Some(skill)), levelRow, Some(stats), Ok(userSkills), None, None);
      (r == Err(CannotUpgrade) <==> !Eligible(skill, level, stats.skillPoints, stats.level, LevelMap(userSkills))) &&
      (r.Ok? ==>
        r.value.newLevel == level + 1 && r.value.newLevel <= skill.maxLevel &&
        r.value.upgradeCost == UpgradeCost(skill, level) &&
        r.value.remainingSkillPoints == stats.skillPoints - r.value.upgradeCost &&
        r.value.remainingSkillPoints >= 0 &&
        (r.value.inserted <==> level == 0))
  {
  }

  // ---------------------------------------------------------------------
  // The catalogue by category
  // ---------------------------------------------------------------------

  /** The skills of one category, in catalogue order. */
  function InCategory(skills: seq<SkillRow>, category: string): (r: seq<SkillRow>)
    ensures |r| <= |skills|
  {
    if skills == [] then []
    else InCategory(skills[..|skills| - 1], category)
         + (if skills[|skills| - 1].category == category then [skills[|skills| - 1]] else [])
  }

  function Categories(skills: seq<SkillRow>): set<string>
  {
    set i | 0 <= i < |skills| :: skills[i].category
  }

  /** A category's group holds exactly the catalogue's skills of that category. */
  lemma {:induction false} InCategoryMembers(skills: seq<SkillRow>, category: string, s: SkillRow)
    ensures s in InCategory(skills, category) <==> s in skills && s.category == category
  {
    if skills != [] {
      var init := skills[..|skills| - 1];
      InCategoryMembers(init, category, s);
      assert skills == init + [skills[|skills| - 1]];
    }
  }

  /** Grouping keeps the catalogue order: the group of a concatenation is the concatenation of the groups. */
  lemma {:induction false} InCategoryAppend(a: seq<SkillRow>, b: seq<SkillRow>, category: string)
    ensures InCategory(a + b, category) == InCategory(a, category) + InCategory(b, category)
    decreases |b|
  {
    if b == [] {
      assert a + b == a;
    } else {
      assert (a + b)[..|a + b| - 1] == a + b[..|b| - 1];
      InCategoryAppend(a, b[..|b| - 1], category);
    }
  }

  /**
   * getSkillsByCategory: one group per category that occurs, each holding
   * that category's skills in catalogue order.
   */
  method GroupByCategory(skills: seq<SkillRow>) returns (categories: map<string, seq<SkillRow>>)
    ensures categories.Keys == Categories(skills)
    ensures forall c :: c in categories ==> categories[c] == InCategory(skills, c)
  {
    categories := map[];
    var i := 0;
    while i < |skills|
      invariant 0 <= i <= |skills|
      invariant categories.Keys == Categories(skills[..i])
      invariant forall c :: c in categories ==> categories[c] == InCategory(skills[..i], c)
    {
      var skill := skills[i];
      assert skills[..i + 1][..i] == skills[..i];
      assert Categories(skills[..i + 1]) == Categories(skills[..i]) + {skill.category};
      if skill.category !in categories {
        assert InCategory(skills[..i], skill.category) == [] by {
          EmptyCategory(skills[..i], skill.category);
        }
        categories := categories[skill.category := []];
      }
      categories := categories[skill.category := categories[skill.category] + [skill]];
      i := i + 1;
    }
    assert skills[..i] == skills;
  }

  lemma {:induction false} EmptyCategory(skills: seq<SkillRow>, category: string)
    requires category !in Categories(skills)
    ensures InCategory(skills, category) == []
  {
    if skills != [] {
      var init := skills[..|skills| - 1];
      assert Categories(init) <= Categories(skills) by {
        forall c | c in Categories(init) ensures c in Categories(skills) {
          var j :| 0 <= j < |init| && init[j].category == c;
          assert skills[j].category == c;
        }
      }
      EmptyCategory(init, category);
      assert skills[|skills| - 1].category in Categories(skills);
    }
  }
}
