// The skill endpoints: the catalogue, a user's skills with their effect
// values, buying a level, and the catalogue by category, as the JSON views
// the routes build from the skill service's results.
module SkillRoutes {
  import opened Common
  import opened Api
  import opened SkillService

  // ---------------------------------------------------------------------
  // GET /api/skills
  // ---------------------------------------------------------------------

  /** A catalogue entry as the routes show it (the database id is not shown). */
  datatype CatalogueView = CatalogueView(
    skillId: string, name: string, description: string, category: string, icon: string,
    maxLevel: int, baseCost: real, costMultiplier: real, effects: seq<Effect>,
    prerequisites: seq<Prerequisite>, unlockLevel: int)

  function Catalogue(skill: SkillRow): CatalogueView
  {
    CatalogueView(skill.skillId, skill.name, skill.description, skill.category, skill.icon,
      skill.maxLevel, skill.baseCost, skill.costMultiplier, skill.effects, skill.prerequisites,
      skill.unlockLevel)
  }

  /** The list of the catalogue route: one view per skill, in the service's order. */
  function CatalogueViews(skills: seq<SkillRow>): (r: seq<CatalogueView>)
    ensures |r| == |skills|
    ensures forall i :: 0 <= i < |skills| ==> r[i].skillId == skills[i].skillId && r[i] == Catalogue(skills[i])
  {
    seq(|skills|, i requires 0 <= i < |skills| => Catalogue(skills[i]))
  }

  /**
   * GET /api/skills: the catalogue's views, or the error getAllSkills
   * throws when its query fails, which goes to the error handler.
   */
  function ListSkills(skills: Result<seq<SkillRow>, string>): (r: Reply<seq<CatalogueView>>)
    ensures skills.Err? <==> r.Forwarded?
    ensures skills.Err? ==> r.message == skills.error
    ensures skills.Ok? ==> r.Success? && r.status == 200 && |r.data| == |skills.value|
    ensures skills.Ok? ==> forall i :: 0 <= i < |skills.value| ==> r.data[i] == Catalogue(skills.value[i])
  {
    match skills
    case Err(message) => Forwarded(message)
    case Ok(rows) => Success(200, CatalogueViews(rows))
  }

  /**
   * The view drops only the database id: two rows with the same view agree
   * on everything else, and listing a concatenation lists the parts in order.
   */
  lemma CatalogueKeepsTheRow(a: SkillRow, b: SkillRow, more: seq<SkillRow>)
    ensures Catalogue(a) == Catalogue(b) <==> a.(id := b.id) == b
    ensures CatalogueViews([a] + more) == [Catalogue(a)] + CatalogueViews(more)
  {
  }

  // ---------------------------------------------------------------------
  // GET /api/skills/user
  // ---------------------------------------------------------------------

  datatype EffectView = EffectView(effectType: string, currentValue: real, nextValue: real, isPercentage: bool)

  /** An effect's value at a level: base_value + level * per_level_increase. */
  function EffectAt(e: Effect, level: int): real
  {
    e.baseValue + level as real * e.perLevelIncrease
  }

  /** The value the skill's current level gives, 0 before the first level. */
  function CurrentValue(e: Effect, level: nat): (v: real)
    ensures level == 0 ==> v == 0.0
  {
    if level > 0 then EffectAt(e, level) else 0.0
  }

  /** The value the next level would give, 0 once the skill is at its cap. */
  function NextValue(e: Effect, level: nat, maxLevel: int): (v: real)
    ensures level >= maxLevel ==> v == 0.0
  {
    if level < maxLevel then EffectAt(e, level + 1) else 0.0
  }

  function EffectViews(effects: seq<Effect>, level: nat, maxLevel: int): (r: seq<EffectView>)
    ensures |r| == |effects|
  {
    seq(|effects|, i requires 0 <= i < |effects| =>
      EffectView(effects[i].effectType, CurrentValue(effects[i], level), NextValue(effects[i], level, maxLevel),
        effects[i].isPercentage))
  }

  /** Between two levels below the cap the next value is exactly one increment above the current one. */
  lemma EffectValuesStep(e: Effect, level: nat, maxLevel: int)
    ensures 0 < level < maxLevel ==> NextValue(e, level, maxLevel) == CurrentValue(e, level) + e.perLevelIncrease
    ensures level < maxLevel ==> NextValue(e, level, maxLevel) == CurrentValue(e, level + 1)
  {
  }

  datatype RequirementView = RequirementView(skillId: string, level: int)

  datatype UserSkillView = UserSkillView(
    skillId: string, name: string, description: string, category: string, icon: string,
    maxLevel: int, currentLevel: nat, isUnlocked: bool, prerequisitesMet: bool, canUpgrade: bool,
    nextLevelCost: int, effects: seq<EffectView>, prerequisites: seq<RequirementView>,
    unlockLevel: int, isMaxLevel: bool)

  function UserSkill(info: SkillWithInfo, userLevel: int): UserSkillView
  {
    var s := info.skill;
    UserSkillView(s.skillId, s.name, s.description, s.category, s.icon, s.maxLevel, info.currentLevel,
      userLevel >= s.unlockLevel, info.canUpgrade || info.currentLevel > 0, info.canUpgrade,
      info.upgradeCost, EffectViews(s.effects, info.currentLevel, s.maxLevel),
      seq(|s.prerequisites|, i requires 0 <= i < |s.prerequisites| =>
        RequirementView(s.prerequisites[i].requiredSkillId, s.prerequisites[i].requiredLevel)),
      s.unlockLevel, info.isMaxLevel)
  }

  /**
   * The reply's data: the skills, the currency (skill points, and coins when
   * the stats row has them; a member that is undefined is left out of the
   * JSON) and the user's level.
   */
  datatype UserSkillsData = UserSkillsData(skills: seq<UserSkillView>, skillPoints: int, coins: Option<int>, userLevel: int)

  function UserSkillViews(infos: seq<SkillWithInfo>, userLevel: int): (r: seq<UserSkillView>)
    ensures |r| == |infos|
  {
    seq(|infos|, i requires 0 <= i < |infos| => UserSkill(infos[i], userLevel))
  }

  /**
   * The reply of the route, given what the service returned (an error goes
   * to the error handler). The service's stats row holds only skill_points
   * and level, so the currency never carries coins.
   */
  function UserSkillsReply(result: Result<UserSkillsResult, string>): (r: Reply<UserSkillsData>)
    ensures result.Err? <==> r.Forwarded?
    ensures result.Err? ==> r.message == result.error
    ensures result.Ok? ==> r.Success? && r.status == 200 && |r.data.skills| == |result.value.skills|
    ensures result.Ok? ==> forall i :: 0 <= i < |result.value.skills| ==>
      r.data.skills[i] == UserSkill(result.value.skills[i], result.value.userStats.level)
    ensures result.Ok? ==>
      r.data.skillPoints == result.value.userStats.skillPoints && r.data.userLevel == result.value.userStats.level &&
      r.data.coins.None?
  {
    match result
    case Err(message) => Forwarded(message)
    case Ok(found) =>
      Success(200, UserSkillsData(UserSkillViews(found.skills, found.userStats.level),
        found.userStats.skillPoints, None, found.userStats.level))
  }

  /**
   * The reply the route evidently means to build: the same skills, points
   * and level, with the coins balance that a stats query selecting the
   * coins column would have returned.
   */
  function UserSkillsReplyWithCoins(result: Result<UserSkillsResult, string>, coins: int): (r: Reply<UserSkillsData>)
    ensures result.Err? ==> r == UserSkillsReply(result)
    ensures result.Ok? ==> r.Success? && r.data == UserSkillsReply(result).data.(coins := Some(coins))
    ensures result.Ok? ==> r.data.coins == Some(coins)
  {
    match result
    case Err(message) => Forwarded(message)
    case Ok(found) =>
      Success(200, UserSkillsData(UserSkillViews(found.skills, found.userStats.level),
        found.userStats.skillPoints, Some(coins), found.userStats.level))
  }

  /**
   * Whatever the user's balance, the skill list as written reports no coins,
   * while the corrected reply reports the balance.
   */
  lemma UserSkillsReplyOmitsCoins(skills: seq<SkillWithInfo>, stats: UserStats, coins: int)
    ensures UserSkillsReply(Ok(UserSkillsResult(skills, stats))).data.coins != Some(coins)
    ensures UserSkillsReplyWithCoins(Ok(UserSkillsResult(skills, stats)), coins).data.coins == Some(coins)
  {
  }

  /**
   * For a skill as the service reports it: it is shown unlocked exactly when
   * the user's level reaches its unlock level, and an offered upgrade
   * really is affordable, unlocked and has its prerequisites met.
   */
  lemma UserSkillViewMeaning(skill: SkillRow, levels: map<string, nat>, stats: UserStats)
    ensures var v := UserSkill(InfoFor(skill, levels, stats), stats.level);
      (v.isUnlocked <==> stats.level >= skill.unlockLevel) &&
      (v.canUpgrade ==> v.isUnlocked && v.prerequisitesMet && PrerequisitesMet(skill, levels) &&
                        stats.skillPoints >= v.nextLevelCost && !v.isMaxLevel) &&
      (v.prerequisitesMet && v.currentLevel == 0 ==> PrerequisitesMet(skill, levels))
  {
  }

  /**
   * The prerequisitesMet flag is not the prerequisite check itself: a skill
   * with no prerequisites that the user cannot yet afford is shown with its
   * prerequisites unmet.
   */
  lemma PrerequisitesFlagCanUnderstate()
    ensures var skill := SkillRow(1, "dash", "Dash", "", "movement", "", 5, 10.0, 1.0, 1, [], []);
      var stats := UserStats(0, 1);
      PrerequisitesMet(skill, map[]) && !UserSkill(InfoFor(skill, map[], stats), stats.level).prerequisitesMet
  {
    var skill := SkillRow(1, "dash", "Dash", "", "movement", "", 5, 10.0, 1.0, 1, [], []);
    assert UpgradeCost(skill, 0) == 10;
  }

  // ---------------------------------------------------------------------
  // POST /api/skills/upgrade
  // ---------------------------------------------------------------------

  datatype UpgradedEffect = UpgradedEffect(effectType: string, newValue: real, isPercentage: bool)

  datatype UpgradeData = UpgradeData(skillId: string, newLevel: int, costPaid: int,
                                     effects: seq<UpgradedEffect>, remainingSkillPoints: int)

  function UpgradeView(u: Upgrade): (r: UpgradeData)
    ensures |r.effects| == |u.skill.effects|
  {
    UpgradeData(u.skill.skillId, u.newLevel, u.upgradeCost,
      seq(|u.skill.effects|, i requires 0 <= i < |u.skill.effects| =>
        UpgradedEffect(u.skill.effects[i].effectType, EffectAt(u.skill.effects[i], u.newLevel),
          u.skill.effects[i].isPercentage)),
      u.remainingSkillPoints)
  }

  const SkillIdRequired := "Skill ID is required"

  /**
   * The upgrade route: a missing or empty skillId is refused before the
   * service is called; any error of the service is a 400 with its message.
   */
  function UpgradeRoute(skillId: Option<string>, upgrade: string -> Result<Upgrade, string>): (r: Reply<UpgradeData>)
    ensures !NotEmpty(skillId) <==> r == Invalid([FieldError("skillId", SkillIdRequired)])
    ensures NotEmpty(skillId) && upgrade(skillId.value).Err? ==> r == Failure(400, upgrade(skillId.value).error)
    ensures r.Success? ==> r.status == 200
  {
    if !NotEmpty(skillId) then Invalid([FieldError("skillId", SkillIdRequired)])
    else match upgrade(skillId.value)
      case Err(message) => Failure(400, message)
      case Ok(u) => Success(200, UpgradeView(u))
  }

  /**
   * What a purchase reports matches what the user's skill list promised
   * before it: the level shown as current plus one, the price shown as the
   * next level's cost, the balance less that price, and for each effect the
   * value shown as the next value, which is the value the list now shows as
   * current.
   */
  lemma UpgradeReportsPromisedValues(skill: SkillRow, levelRow: Option<nat>, stats: UserStats, userSkills: seq<UserSkill>)
    requires skill.skillId != ""
    requires levelRow.GetOr(0) == LevelIn(LevelMap(userSkills), skill.skillId)
    requires UpgradeOutcome(Ok(Some(skill)), levelRow, Some(stats), Ok(userSkills), None, None).Ok?
    ensures var before := UserSkill(InfoFor(skill, LevelMap(userSkills), stats), stats.level);
      var reply := UpgradeRoute(Some(skill.skillId),
        _ => UpgradeOutcome(Ok(Some(skill)), levelRow, Some(stats), Ok(userSkills), None, None));
      reply.Success? && before.canUpgrade &&
      reply.data.newLevel == before.currentLevel + 1 &&
      reply.data.costPaid == before.nextLevelCost &&
      reply.data.remainingSkillPoints == stats.skillPoints - before.nextLevelCost &&
      |reply.data.effects| == |before.effects| &&
      forall i :: 0 <= i < |before.effects| ==>
        reply.data.effects[i].newValue == before.effects[i].nextValue &&
        reply.data.effects[i].newValue == CurrentValue(skill.effects[i], before.currentLevel + 1)
  {
  }

  // ---------------------------------------------------------------------
  // GET /api/skills/categories
  // ---------------------------------------------------------------------

  /** A grouped entry: the catalogue view without the category, which is the group's key. */
  datatype GroupedView = GroupedView(
    skillId: string, name: string, description: string, icon: string, maxLevel: int,
    baseCost: real, costMultiplier: real, effects: seq<Effect>, prerequisites: seq<Prerequisite>,
    unlockLevel: int)

  function Grouped(skill: SkillRow): GroupedView
  {
    GroupedView(skill.skillId, skill.name, skill.description, skill.icon, skill.maxLevel,
      skill.baseCost, skill.costMultiplier, skill.effects, skill.prerequisites, skill.unlockLevel)
  }

  function GroupViews(skills: seq<SkillRow>): (r: seq<GroupedView>)
    ensures |r| == |skills|
  {
    seq(|skills|, i requires 0 <= i < |skills| => Grouped(skills[i]))
  }

  function GroupedCategories(categories: map<string, seq<SkillRow>>): (r: map<string, seq<GroupedView>>)
    ensures r.Keys == categories.Keys
  {
    map c | c in categories :: GroupViews(categories[c])
  }

  /**
   * GET /api/skills/categories: the service's groups as views, or the error
   * getAllSkills throws, which goes to the error handler.
   */
  function CategoriesReply(categories: Result<map<string, seq<SkillRow>>, string>): (r: Reply<map<string, seq<GroupedView>>>)
    ensures categories.Err? <==> r.Forwarded?
    ensures categories.Err? ==> r.message == categories.error
    ensures categories.Ok? ==> r.Success? && r.status == 200 && r.data.Keys == categories.value.Keys
    ensures categories.Ok? ==> forall c :: c in r.data ==> r.data[c] == GroupViews(categories.value[c])
  {
    match categories
    case Err(message) => Forwarded(message)
    case Ok(groups) => Success(200, GroupedCategories(groups))
  }

  /**
   * Over the service's grouping, the route has one group per category of
   * the catalogue, and a group lists the catalogue's skills of that category
   * in catalogue order.
   */
  lemma CategoriesReplyGroups(skills: seq<SkillRow>, categories: map<string, seq<SkillRow>>, c: string)
    requires categories.Keys == Categories(skills)
    requires forall k :: k in categories ==> categories[k] == InCategory(skills, k)
    ensures c in CategoriesReply(Ok(categories)).data <==> exists i :: 0 <= i < |skills| && skills[i].category == c
    ensures c in CategoriesReply(Ok(categories)).data ==>
      CategoriesReply(Ok(categories)).data[c] == GroupViews(InCategory(skills, c)) &&
      forall s :: s in InCategory(skills, c) <==> s in skills && s.category == c
  {
    if c in categories {
      forall s ensures s in InCategory(skills, c) <==> s in skills && s.category == c {
        InCategoryMembers(skills, c, s);
      }
    }
  }
}
