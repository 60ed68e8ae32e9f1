/** The three race skill tables and the evolution filter over them
    (shared/raceSkills.ts). A table is a JavaScript record; it is modelled as the
    list of its entries in declaration order, which is the order `Object.entries`
    visits them and the order in which the filter re-inserts them. */
module RaceSkills {
  import opened Wrappers
  import opened RaceSystem

  datatype SkillType = Attack | Defense | Recovery | Special

  datatype RaceSkillConfig = RaceSkillConfig(
    name: string,
    description: string,
    skillType: SkillType,
    mpCost: int,
    cooldown: int,
    minEvolution: int,
    baseDamage: Option<int>,
    defenseBoost: Option<int>,
    recoveryAmount: Option<int>)

  datatype SkillEntry = SkillEntry(key: string, config: RaceSkillConfig)

  type SkillRecord = seq<SkillEntry>

  function AttackSkill(name: string, description: string, t: SkillType, mpCost: int, cooldown: int,
                       minEvolution: int, damage: int): RaceSkillConfig
  {
    RaceSkillConfig(name, description, t, mpCost, cooldown, minEvolution, Some(damage), None, None)
  }

  function DefenseSkill(name: string, description: string, mpCost: int, cooldown: int,
                        minEvolution: int, boost: int): RaceSkillConfig
  {
    RaceSkillConfig(name, description, Defense, mpCost, cooldown, minEvolution, None, Some(boost), None)
  }

  const HumanSkills: SkillRecord := [
    SkillEntry("fireball", AttackSkill("烈火斩", "释放烈火，对敌人造成伤害", Attack, 20, 1, 0, 30)),
    SkillEntry("frostbolt", AttackSkill("冰冻术", "冰冻敌人，降低其攻击力", Special, 25, 2, 1, 25)),
    SkillEntry("magicShield", DefenseSkill("魔法盾", "创建魔法屏障，提高防御", 15, 2, 0, 15)),
    SkillEntry("arcanePulse", AttackSkill("秘法脉冲", "释放强大的秘法能量", Attack, 40, 3, 2, 50))]

  const BeastSkills: SkillRecord := [
    SkillEntry("slash", AttackSkill("野蛮斩击", "用利爪进行猛烈斩击", Attack, 15, 1, 0, 40)),
    SkillEntry("roar", AttackSkill("野兽咆哮", "发出震撼的咆哮，提高攻击力", Special, 20, 2, 1, 20)),
    SkillEntry("ironSkin", DefenseSkill("铁皮防御", "强化皮肤，大幅提高防御", 10, 2, 0, 20)),
    SkillEntry("primalFury", AttackSkill("原始怒火", "释放原始的力量进行毁灭性攻击", Attack, 35, 3, 2, 60))]

  const HybridSkills: SkillRecord := [
    SkillEntry("combo", AttackSkill("连击", "进行快速的连续攻击", Attack, 18, 1, 0, 35)),
    SkillEntry("counterAttack", AttackSkill("反击", "预判敌人的攻击并进行反击", Special, 22, 2, 1, 28)),
    SkillEntry("balancedDefense", DefenseSkill("均衡防御", "在攻防之间取得平衡", 12, 2, 0, 17)),
    SkillEntry("harmonizedStrike", AttackSkill("和谐一击", "将身心合一，释放最强一击", Attack, 38, 3, 2, 55))]

  /** getRaceSkills: the table of the given race (the `default` branch is unreachable
      for the three race values). */
  function GetRaceSkills(race: Race): (table: SkillRecord)
    ensures race == Human ==> table == HumanSkills
    ensures race == Beast ==> table == BeastSkills
    ensures race == Hybrid ==> table == HybridSkills
  {
    match race
    case Human => HumanSkills
    case Beast => BeastSkills
    case Hybrid => HybridSkills
  }

  /** The entries of `all` whose minEvolution is at most `evolution`, in order. */
  function Unlocked(all: SkillRecord, evolution: int): (r: SkillRecord)
    ensures forall e :: e in r <==> e in all && e.config.minEvolution <= evolution
    ensures |r| <= |all|
  {
    if all == [] then []
    else
      var last := all[|all| - 1];
      assert forall e :: e in all <==> e in all[..|all| - 1] || e == last;
      Unlocked(all[..|all| - 1], evolution) + (if last.config.minEvolution <= evolution then [last] else [])
  }

  /** getAvailableSkillsForEvolution: the `for` loop that copies every entry whose
      minEvolution is at most `evolution` into a fresh record. */
  method AvailableSkillsForEvolution(race: Race, evolution: int) returns (available: SkillRecord)
    ensures available == Unlocked(GetRaceSkills(race), evolution)
  {
    var allSkills := GetRaceSkills(race);
    available := [];
    for i := 0 to |allSkills|
      invariant available == Unlocked(allSkills[..i], evolution)
    {
      var entry := allSkills[i];
      if entry.config.minEvolution <= evolution {
        available := available + [entry];
      }
      assert allSkills[..i + 1][..i] == allSkills[..i];
    }
    assert allSkills[..|allSkills|] == allSkills;
  }

  // ---------------------------------------------------------------------------
  // Properties
  // ---------------------------------------------------------------------------

  /** Every table has four distinct keys. */
  lemma TablesHaveFourDistinctKeys(race: Race)
    ensures |GetRaceSkills(race)| == 4
    ensures forall i, j :: 0 <= i < j < 4 ==> GetRaceSkills(race)[i].key != GetRaceSkills(race)[j].key
  {
  }

  /** A key is available iff its minEvolution is at most the evolution, and the
      available config is the race table's own entry. */
  lemma AvailableIffUnlocked(race: Race, evolution: int, e: SkillEntry)
    ensures e in Unlocked(GetRaceSkills(race), evolution)
            <==> e in GetRaceSkills(race) && e.config.minEvolution <= evolution
  {
  }

  /** A higher evolution never loses a skill. */
  lemma {:induction false} UnlockedMonotone(all: SkillRecord, e1: int, e2: int)
    requires e1 <= e2
    ensures forall e :: e in Unlocked(all, e1) ==> e in Unlocked(all, e2)
  {
  }

  /** One entry appended to a record is filtered on its own. */
  lemma UnlockedSnoc(all: SkillRecord, x: SkillEntry, evolution: int)
    ensures Unlocked(all + [x], evolution)
            == Unlocked(all, evolution) + (if x.config.minEvolution <= evolution then [x] else [])
  {
    assert (all + [x])[..|all|] == all;
  }

  /** Two skills per race at evolution 0, all four from evolution 2 on. */
  lemma UnlockCounts(race: Race, evolution: int)
    ensures evolution == 0 ==> |Unlocked(GetRaceSkills(race), evolution)| == 2
    ensures evolution >= 2 ==> Unlocked(GetRaceSkills(race), evolution) == GetRaceSkills(race)
  {
    var t := GetRaceSkills(race);
    assert t == [] + [t[0]] + [t[1]] + [t[2]] + [t[3]];
    UnlockedSnoc([], t[0], evolution);
    UnlockedSnoc([t[0]], t[1], evolution);
    UnlockedSnoc([t[0], t[1]], t[2], evolution);
    UnlockedSnoc([t[0], t[1], t[2]], t[3], evolution);
  }
}
