/** Evolution and level-up of a stored pet (server/evolutionDb.ts). The stage here is
    the number of thresholds in [10, 30, 50] that the level has reached (0..3), a
    different notion from RaceSystem.EvolutionStage (0..2). */
module EvolutionDb {
  import opened Wrappers
  import opened Schema
  import RaceSystem
  import PetDb

  /** `EVOLUTION_LEVELS.filter(evoLevel => level >= evoLevel).length` */
  function StageCount(level: int): (n: nat)
    ensures n <= |RaceSystem.EvolutionLevels|
  {
    |Filter(RaceSystem.EvolutionLevels, (t: int) => level >= t)|
  }

  /** The count steps at 10, 30 and 50. */
  lemma StageCountSteps(level: int)
    ensures StageCount(level) == if level >= 50 then 3 else if level >= 30 then 2 else if level >= 10 then 1 else 0
  {
    var levels := RaceSystem.EvolutionLevels;
    var p := (t: int) => level >= t;
    assert levels[1..] == [30, 50] && levels[1..][1..] == [50] && levels[1..][1..][1..] == [];
    assert Filter(levels, p) == (if p(10) then [10] else []) + Filter([30, 50], p);
    assert Filter([30, 50], p) == (if p(30) then [30] else []) + Filter([50], p);
    assert Filter([50], p) == (if p(50) then [50] else []) + Filter([], p);
  }

  /** A higher level never has a lower count. */
  lemma StageCountMonotone(l1: int, l2: int)
    requires l1 <= l2
    ensures StageCount(l1) <= StageCount(l2)
  {
    StageCountSteps(l1);
    StageCountSteps(l2);
  }

  /** The race-system stage is the count minus one, floored at zero: the two notions
      disagree on every level from 10 on. */
  lemma StageNotionsDiffer(level: int)
    ensures RaceSystem.EvolutionStage(level) == Max(0, StageCount(level) - 1)
    ensures level >= 10 ==> RaceSystem.EvolutionStage(level) < StageCount(level)
  {
    StageCountSteps(level);
  }

  /** canPetEvolve: the computed count exceeds the stored evolution. */
  function CanPetEvolve(pets: map<int, Pet>, petId: int): (r: Result<bool>)
    ensures r.Err? <==> petId !in pets
    ensures r.Err? ==> r.message == "Pet not found"
    ensures r.Ok? ==> (r.value <==> StageCount(pets[petId].level) > pets[petId].evolution)
  {
    if petId !in pets then Err("Pet not found")
    else Ok(StageCount(pets[petId].level) > pets[petId].evolution)
  }

  /** The reply of evolvePet and levelUpPet. */
  datatype Outcome = Outcome(success: bool, message: string, pet: Option<Pet>, evolved: Option<bool>)

  function Failure(message: string): Outcome
  {
    Outcome(false, message, None, None)
  }

  /** The stored pet with the stats of its race at the given level. */
  function WithStats(pet: Pet, race: RaceSystem.Race, level: int): Pet
  {
    var s := RaceSystem.CalculatePetStats(race, level);
    pet.(maxHp := s.maxHp, maxMp := s.maxMp, hp := s.hp, mp := s.mp, strength := s.strength, agility := s.agility)
  }

  function EvolvedMessage(stage: int): string
  {
    "宠物进化成功！现在是第 " + IntToString(stage) + " 阶段"
  }

  /** evolvePet: refused with no write when the count does not exceed the stored
      evolution; a pet without a race makes the stat computation throw, which is
      reported as "Evolution failed" with no write; otherwise the evolution becomes
      the count and the stats are recomputed at full HP and MP. */
  method EvolvePet(db: GameDb, petId: int) returns (o: Outcome)
    requires db.Valid()
    modifies db`pets
    ensures db.Valid()
    ensures !o.success ==> db.pets == old(db.pets)
    ensures petId !in old(db.pets) ==> o == Failure("Pet not found")
    ensures petId in old(db.pets) && StageCount(old(db.pets)[petId].level) <= old(db.pets)[petId].evolution ==>
              o == Failure("Pet cannot evolve at this level")
    ensures (petId in old(db.pets) && StageCount(old(db.pets)[petId].level) > old(db.pets)[petId].evolution
             && old(db.pets)[petId].race.None?) ==> o == Failure("Evolution failed")
    ensures o.success <==> petId in old(db.pets) && StageCount(old(db.pets)[petId].level) > old(db.pets)[petId].evolution
                           && old(db.pets)[petId].race.Some?
    ensures o.success ==>
              var p := old(db.pets)[petId];
              var q := WithStats(p, p.race.value, p.level).(evolution := StageCount(p.level));
              db.pets == old(db.pets)[petId := q] && o == Outcome(true, EvolvedMessage(StageCount(p.level)), Some(q), None)
  {
    if petId !in db.pets {
      return Failure("Pet not found");
    }
    var pet := db.pets[petId];
    var newEvolution := StageCount(pet.level);
    if newEvolution <= pet.evolution {
      return Failure("Pet cannot evolve at this level");
    }
    if pet.race.None? {
      return Failure("Evolution failed");
    }
    var updated := WithStats(pet, pet.race.value, pet.level).(evolution := newEvolution);
    db.RewritePet(petId, updated);
    o := Outcome(true, EvolvedMessage(newEvolution), Some(updated), None);
  }

  /** The `while (newExp >= pet.maxExp)` loop of levelUpPet: every full maxExp of
      experience is traded for one level. */
  method GainLevels(level: int, exp: int, maxExp: int, expGain: int) returns (newLevel: int, newExp: int)
    requires maxExp > 0
    ensures newExp < maxExp && newLevel >= level
    ensures exp + expGain == newExp + (newLevel - level) * maxExp
    ensures exp + expGain < maxExp ==> newLevel == level && newExp == exp + expGain
    ensures exp + expGain >= 0 ==>
              newExp == (exp + expGain) % maxExp && newLevel == level + (exp + expGain) / maxExp
  {
    newLevel := level;
    newExp := exp + expGain;
    while newExp >= maxExp
      invariant newLevel >= level
      invariant exp + expGain == newExp + (newLevel - level) * maxExp
      invariant exp + expGain >= 0 ==> newExp >= 0
      invariant exp + expGain < maxExp ==> newLevel == level
      decreases newExp
    {
      newExp := newExp - maxExp;
      newLevel := newLevel + 1;
    }
    if exp + expGain >= 0 {
      DivModUnique(exp + expGain, newLevel - level, newExp, maxExp);
    }
  }

  /** Division with a non-negative remainder below the divisor has one answer. */
  lemma DivModUnique(a: int, q: int, r: int, m: int)
    requires m > 0 && 0 <= r < m && a == q * m + r
    ensures q == a / m && r == a % m
  {
    var q', r' := a / m, a % m;
    assert (q - q') * m == r' - r;
    if q - q' >= 1 {
      MulGrows(q - q', m);
    } else if q' - q >= 1 {
      MulGrows(q' - q, m);
    }
  }

  lemma MulGrows(d: int, m: int)
    requires d >= 1 && m > 0
    ensures d * m >= m
  {
    assert d * m == (d - 1) * m + m;
  }

  function LevelUpMessage(oldLevel: int, newLevel: int, evolved: bool, stage: int): string
  {
    if newLevel > oldLevel then
      "宠物升级到第 " + IntToString(newLevel) + " 级！" + (if evolved then " " + EvolvedMessage(stage) else "")
    else ""
  }

  /** levelUpPet: exp is converted into levels, stats are recomputed for the new level,
      the evolution becomes the count at the new level and `evolved` says whether it
      grew. A pet without a race makes the stat computation throw: "Level up failed". */
  method LevelUpPet(db: GameDb, petId: int, expGain: int) returns (o: Outcome)
    requires db.Valid()
    modifies db`pets
    ensures db.Valid()
    ensures !o.success ==> db.pets == old(db.pets)
    ensures petId !in old(db.pets) ==> o == Failure("Pet not found")
    ensures petId in old(db.pets) && old(db.pets)[petId].race.None? ==> o == Failure("Level up failed")
    ensures o.success <==> petId in old(db.pets) && old(db.pets)[petId].race.Some?
    ensures o.success ==>
              var p := old(db.pets)[petId];
              petId in db.pets &&
              var q := db.pets[petId];
              && db.pets == old(db.pets)[petId := q]
              && q.level >= p.level && q.exp < p.maxExp
              && p.exp + expGain == q.exp + (q.level - p.level) * p.maxExp
              && (p.exp + expGain < p.maxExp ==> q.level == p.level && q.exp == p.exp + expGain)
              && (p.exp + expGain >= 0 ==>
                    q.exp == (p.exp + expGain) % p.maxExp && q.level == p.level + (p.exp + expGain) / p.maxExp)
              && q == WithStats(p, p.race.value, q.level).(level := q.level, exp := q.exp, evolution := StageCount(q.level))
              && o.pet == Some(q)
              && o.evolved == Some(StageCount(q.level) > p.evolution)
  {
    if petId !in db.pets {
      return Failure("Pet not found");
    }
    var pet := db.pets[petId];
    var newLevel, newExp := GainLevels(pet.level, pet.exp, pet.maxExp, expGain);
    if pet.race.None? {
      return Failure("Level up failed");
    }
    var newEvolution := StageCount(newLevel);
    var hasEvolved := newEvolution > pet.evolution;
    var updated := WithStats(pet, pet.race.value, newLevel).(level := newLevel, exp := newExp, evolution := newEvolution);
    db.RewritePet(petId, updated);
    o := Outcome(true, LevelUpMessage(pet.level, newLevel, hasEvolved, newEvolution), Some(updated), Some(hasEvolved));
  }

  /** A level-up never lowers the level, and from a count that matches the stored
      evolution it never lowers the evolution either. */
  lemma LevelUpNeverRegresses(level: int, newLevel: int, evolution: int)
    requires newLevel >= level && evolution == StageCount(level)
    ensures StageCount(newLevel) >= evolution
  {
    StageCountMonotone(level, newLevel);
  }

  /** getExpRequiredForLevel */
  function ExpRequiredForLevel(level: int): int
  {
    100 + (level - 1) * 50
  }

  /** Each level needs 50 more experience than the one before it. */
  lemma ExpRequiredStrictlyIncreases(l1: int, l2: int)
    requires l1 < l2
    ensures ExpRequiredForLevel(l1) < ExpRequiredForLevel(l2)
    ensures ExpRequiredForLevel(l2) - ExpRequiredForLevel(l1) == 50 * (l2 - l1)
  {
  }

  /** The row createUserPet inserts starts at level 1 with no experience, full hp, and
      an evolution that agrees with both stage notions; its maxExp is what
      getExpRequiredForLevel asks for level 1. */
  lemma NewPetIsStarter(id: int, userId: int, name: string)
    ensures var p := PetDb.NewPet(id, userId, name);
            && p.level == 1 && p.exp == 0 && p.hp == p.maxHp == 100 && p.evolution == 0
            && p.maxExp == ExpRequiredForLevel(p.level)
            && StageCount(p.level) == p.evolution && RaceSystem.EvolutionStage(p.level) == p.evolution
  {
    StageCountSteps(1);
  }

  /** `s.find(t => t > level)` */
  function FirstAbove(s: seq<int>, level: int): (r: Option<int>)
    ensures r.Some? ==> r.value in s && r.value > level
    ensures r.Some? ==> exists i :: 0 <= i < |s| && s[i] == r.value && forall j :: 0 <= j < i ==> s[j] <= level
    ensures r.None? <==> forall i :: 0 <= i < |s| ==> s[i] <= level
  {
    if s == [] then None
    else if s[0] > level then Some(s[0])
    else
      var rest := FirstAbove(s[1..], level);
      assert forall i :: 1 <= i < |s| ==> s[i] == s[1..][i - 1];
      if rest.Some? then
        var k :| 0 <= k < |s[1..]| && s[1..][k] == rest.value && forall j :: 0 <= j < k ==> s[1..][j] <= level;
        assert s[k + 1] == rest.value;
        rest
      else rest
  }

  /** getNextEvolutionLevel (evolutionDb.ts): the first threshold above the level, or
      null; no threshold is 0, so `|| null` never turns a found threshold into null. */
  function NextEvolutionLevel(currentLevel: int): (r: Option<int>)
    ensures r.None? <==> currentLevel >= 50
    ensures r.Some? ==> r.value in RaceSystem.EvolutionLevels && r.value > currentLevel
    ensures r.Some? ==> forall t :: t in RaceSystem.EvolutionLevels && t > currentLevel ==> r.value <= t
  {
    var levels := RaceSystem.EvolutionLevels;
    var found := FirstAbove(levels, currentLevel);
    assert levels[0] == 10 && levels[1] == 30 && levels[2] == 50;
    if found.Some? && found.value != 0 then found else None
  }
}
