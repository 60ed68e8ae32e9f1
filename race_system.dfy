/** Races, stat formulas, evolution thresholds and the per-race skill list of the
    shared race system (shared/raceSystem.ts). Everything here is arithmetic over
    constant tables. */
module RaceSystem {
  import opened Wrappers

  datatype Race = Human | Beast | Hybrid

  datatype RaceConfig = RaceConfig(
    name: string,
    description: string,
    hpBase: int,
    hpPerLevel: int,
    mpBase: int,
    mpPerLevel: int,
    strengthBase: int,
    agilityBase: int)

  /** RACE_CONFIG */
  function Config(race: Race): RaceConfig
  {
    match race
    case Human => RaceConfig("人族", "血量低，蓝量高，擅长魔法攻击", 50, 8, 100, 15, 8, 7)
    case Beast => RaceConfig("兽族", "血量高，蓝量低，擅长物理攻击", 100, 20, 50, 8, 12, 4)
    case Hybrid => RaceConfig("人兽族", "血量中等，蓝量中等，均衡发展", 75, 14, 75, 12, 10, 6)
  }

  function MaxHp(race: Race, level: int): int
  {
    Config(race).hpBase + Config(race).hpPerLevel * (level - 1)
  }

  function MaxMp(race: Race, level: int): int
  {
    Config(race).mpBase + Config(race).mpPerLevel * (level - 1)
  }

  /** strengthBase + floor((level - 1) * 0.5); Dafny's `/` by a positive divisor floors. */
  function Strength(race: Race, level: int): int
  {
    Config(race).strengthBase + (level - 1) / 2
  }

  /** agilityBase + floor((level - 1) * 0.3), computed exactly as floor(3 * (level - 1) / 10). */
  function Agility(race: Race, level: int): int
  {
    Config(race).agilityBase + (3 * (level - 1)) / 10
  }

  /** EVOLUTION_LEVELS */
  const EvolutionLevels: seq<int> := [10, 30, 50]

  /** getEvolutionStage: stages 0..2 with thresholds 30 and 50. */
  function EvolutionStage(level: int): int
  {
    if level >= 50 then 2 else if level >= 30 then 1 else 0
  }

  /** canEvolve: indexing EVOLUTION_LEVELS outside 0..2 yields undefined, and any
      comparison with undefined is false. */
  function CanEvolve(currentLevel: int, currentEvolution: int): bool
  {
    var reached := if 0 <= currentEvolution < |EvolutionLevels|
                   then currentLevel >= EvolutionLevels[currentEvolution]
                   else false;
    reached && currentEvolution < |EvolutionLevels|
  }

  /** getNextEvolutionLevel: null from evolution 3 on. A negative evolution indexes
      outside the array and yields undefined, modelled as None as well. */
  function NextEvolutionLevel(currentEvolution: int): Option<int>
  {
    if currentEvolution >= |EvolutionLevels| then None
    else if currentEvolution < 0 then None
    else Some(EvolutionLevels[currentEvolution])
  }

  datatype PetStats = PetStats(hp: int, maxHp: int, mp: int, maxMp: int, strength: int, agility: int)

  function CalculatePetStats(race: Race, level: int): PetStats
  {
    PetStats(MaxHp(race, level), MaxHp(race, level), MaxMp(race, level), MaxMp(race, level),
             Strength(race, level), Agility(race, level))
  }

  datatype SkillConfig = SkillConfig(
    id: int,
    name: string,
    description: string,
    damage: int,
    mpCost: int,
    cooldown: int,
    mpRestore: int,
    requiredLevel: int,
    requiredEvolution: int,
    icon: string)

  /** SKILLS_BY_RACE */
  function SkillsByRace(race: Race): seq<SkillConfig>
  {
    match race
    case Human => [
      SkillConfig(1, "魔法箭", "射出魔法箭，造成伤害", 30, 20, 0, 0, 1, 0, "🔮"),
      SkillConfig(2, "冰冻术", "冻结敌人，造成伤害并降低其速度", 40, 30, 1, 0, 10, 1, "❄️"),
      SkillConfig(3, "魔法风暴", "释放魔法风暴，造成大量伤害", 60, 50, 2, 0, 30, 2, "⛈️"),
      SkillConfig(4, "魔法禁制", "禁止敌人使用魔法", 20, 40, 3, 0, 50, 3, "🚫")]
    case Beast => [
      SkillConfig(5, "野蛮冲撞", "蛮力冲撞，造成伤害", 50, 15, 0, 0, 1, 0, "💥"),
      SkillConfig(6, "猛烈斩击", "用力斩击，造成大量伤害", 70, 20, 1, 0, 10, 1, "⚔️"),
      SkillConfig(7, "狂暴状态", "进入狂暴状态，大幅提升攻击力", 80, 25, 2, 0, 30, 2, "🔥"),
      SkillConfig(8, "终极一击", "蓄力后的终极一击，造成巨大伤害", 100, 30, 3, 0, 50, 3, "💫")]
    case Hybrid => [
      SkillConfig(9, "平衡打击", "均衡的攻击，造成伤害", 40, 18, 0, 0, 1, 0, "⚡"),
      SkillConfig(10, "能量爆发", "释放能量，造成伤害并恢复蓝量", 45, 25, 1, 15, 10, 1, "✨"),
      SkillConfig(11, "混合技能", "结合物理和魔法的混合技能", 65, 35, 2, 0, 30, 2, "🌟"),
      SkillConfig(12, "完美融合", "完美融合物理和魔法力量", 85, 45, 3, 20, 50, 3, "🎆")]
  }

  function AllSkills(): seq<SkillConfig>
  {
    SkillsByRace(Human) + SkillsByRace(Beast) + SkillsByRace(Hybrid)
  }

  // ---------------------------------------------------------------------------
  // Properties of the formulas and tables
  // ---------------------------------------------------------------------------

  /** At level 1 the maxima are the race's base values. */
  lemma LevelOneIsBase(race: Race)
    ensures MaxHp(race, 1) == Config(race).hpBase
    ensures MaxMp(race, 1) == Config(race).mpBase
  {
  }

  /** Every per-level increment is positive, so both maxima strictly grow with level. */
  lemma {:induction false} MaximaStrictlyIncrease(race: Race, l1: int, l2: int)
    requires l1 < l2
    ensures MaxHp(race, l1) < MaxHp(race, l2)
    ensures MaxMp(race, l1) < MaxMp(race, l2)
  {
    var c := Config(race);
    assert c.hpPerLevel > 0 && c.mpPerLevel > 0;
    assert c.hpPerLevel * (l2 - 1) - c.hpPerLevel * (l1 - 1) == c.hpPerLevel * (l2 - l1);
    assert c.mpPerLevel * (l2 - 1) - c.mpPerLevel * (l1 - 1) == c.mpPerLevel * (l2 - l1);
  }

  /** At every level from 1 on: HP orders beast > hybrid > human, MP orders human > hybrid > beast. */
  lemma RaceOrdering(level: int)
    requires level >= 1
    ensures MaxHp(Beast, level) > MaxHp(Hybrid, level) > MaxHp(Human, level)
    ensures MaxMp(Human, level) > MaxMp(Hybrid, level) > MaxMp(Beast, level)
  {
  }

  /** A freshly computed stat block is at full HP and MP. */
  lemma PetStatsAreFull(race: Race, level: int)
    ensures CalculatePetStats(race, level).hp == CalculatePetStats(race, level).maxHp == MaxHp(race, level)
    ensures CalculatePetStats(race, level).mp == CalculatePetStats(race, level).maxMp == MaxMp(race, level)
  {
  }

  /** Strength gains one point every two levels: at level 1 + 2k it is strengthBase + k. */
  lemma StrengthEveryTwoLevels(race: Race, k: nat)
    ensures Strength(race, 1 + 2 * k) == Config(race).strengthBase + k
    ensures Strength(race, 2 + 2 * k) == Config(race).strengthBase + k
  {
  }

  /** getEvolutionStage lies in 0..2, is monotone in level, and steps exactly at 30 and 50. */
  lemma EvolutionStageShape(l1: int, l2: int)
    requires l1 <= l2
    ensures 0 <= EvolutionStage(l1) <= EvolutionStage(l2) <= 2
    ensures EvolutionStage(l1) == 0 <==> l1 < 30
    ensures EvolutionStage(l1) == 2 <==> l1 >= 50
  {
  }

  /** canEvolve is false outside evolutions 0..2, and otherwise compares the level
      with that evolution's threshold. */
  lemma CanEvolveCharacterised(level: int, evolution: int)
    ensures evolution < 0 || evolution > 2 ==> !CanEvolve(level, evolution)
    ensures 0 <= evolution <= 2 ==> (CanEvolve(level, evolution) <==> level >= EvolutionLevels[evolution])
  {
  }

  /** getNextEvolutionLevel is null from evolution 3 on and the threshold of that evolution before. */
  lemma NextEvolutionLevelCharacterised(evolution: int)
    ensures evolution >= 3 ==> NextEvolutionLevel(evolution) == None
    ensures 0 <= evolution < 3 ==> NextEvolutionLevel(evolution) == Some(EvolutionLevels[evolution])
  {
  }

  /** Four skills per race, twelve distinct ids, mpCost in (0, 100], damage in [0, 200],
      requiredEvolution in [0, 3]. */
  lemma SkillTableShape()
    ensures |SkillsByRace(Human)| == |SkillsByRace(Beast)| == |SkillsByRace(Hybrid)| == 4
    ensures |AllSkills()| == 12
    ensures forall i, j :: 0 <= i < j < |AllSkills()| ==> AllSkills()[i].id != AllSkills()[j].id
    ensures forall s :: s in AllSkills() ==> 0 < s.mpCost <= 100 && 0 <= s.damage <= 200
    ensures forall s :: s in AllSkills() ==> 0 <= s.requiredEvolution <= 3
  {
    var all := AllSkills();
    assert forall i :: 0 <= i < |all| ==> all[i].id == i + 1;
  }
}
