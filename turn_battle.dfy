/** The turn-based battle engine (server/turnBasedBattle.ts). A battle is a mutable
    record that the engine's procedures update in place; here it is the class
    BattleState, and each procedure is a method proved against a pure function on the
    value snapshot Battle. Randomness is a parameter: the damage jitter is the integer
    `floor((random - 0.5) * damage * 0.2)`, the AI's coin is `random > 0.5` and its roll
    picks the candidate at `roll % count`. */
module TurnBattle {
  import opened Wrappers
  import opened Schema

  /** A snapshot of a battle's fields. `winner` is 1 for the player, 2 for the opponent. */
  datatype Battle = Battle(
    playerPetId: int,
    playerPetHp: int,
    playerPetMp: int,
    playerPetMaxMp: int,
    playerSkillCooldowns: map<int, int>,
    opponentPetId: int,
    opponentPetHp: int,
    opponentPetMp: int,
    opponentPetMaxMp: int,
    opponentSkillCooldowns: map<int, int>,
    currentRound: int,
    battleLog: seq<string>,
    isFinished: bool,
    winner: Option<int>)

  const PetMissingMessage: string := "宠物不存在"
  const SkillMissingMessage: string := "技能不存在"
  const NotEnoughMpMessage: string := "蓝量不足"
  const DefendMpRestore: int := 15
  const RoundMpRestore: int := 10
  const DefendMessage: string := "防守并恢复了15蓝量"
  const OpponentWonLog: string := "对手的宠物获胜！"
  const PlayerWonLog: string := "您的宠物获胜！"

  // Reading and writing one side's fields.

  function Hp(b: Battle, isPlayer: bool): int
  {
    if isPlayer then b.playerPetHp else b.opponentPetHp
  }

  function Mp(b: Battle, isPlayer: bool): int
  {
    if isPlayer then b.playerPetMp else b.opponentPetMp
  }

  function MaxMp(b: Battle, isPlayer: bool): int
  {
    if isPlayer then b.playerPetMaxMp else b.opponentPetMaxMp
  }

  function Cooldowns(b: Battle, isPlayer: bool): map<int, int>
  {
    if isPlayer then b.playerSkillCooldowns else b.opponentSkillCooldowns
  }

  function WithHp(b: Battle, isPlayer: bool, hp: int): Battle
  {
    if isPlayer then b.(playerPetHp := hp) else b.(opponentPetHp := hp)
  }

  function WithMp(b: Battle, isPlayer: bool, mp: int): Battle
  {
    if isPlayer then b.(playerPetMp := mp) else b.(opponentPetMp := mp)
  }

  function WithCooldowns(b: Battle, isPlayer: bool, cds: map<int, int>): Battle
  {
    if isPlayer then b.(playerSkillCooldowns := cds) else b.(opponentSkillCooldowns := cds)
  }

  /** The battle initializeBattle opens between two stored pets. */
  function Opening(playerPetId: int, playerPet: Pet, opponentPetId: int, opponentPet: Pet): Battle
  {
    Battle(
      playerPetId, playerPet.hp, playerPet.mp, playerPet.maxMp, map[],
      opponentPetId, opponentPet.hp, opponentPet.mp, opponentPet.maxMp, map[],
      1, ["战斗开始！" + playerPet.name + " vs " + opponentPet.name], false, None)
  }

  /** initializeBattle: both pets must exist; the battle opens in round 1 with the pets'
      stored HP and MP, no cooldowns, one log line and no winner. */
  function InitializeBattle(pets: map<int, Pet>, playerPetId: int, opponentPetId: int): (r: Result<Battle>)
    ensures r.Err? <==> playerPetId !in pets || opponentPetId !in pets
    ensures r.Err? ==> r.message == PetMissingMessage
    ensures r.Ok? ==>
              && r.value.currentRound == 1 && !r.value.isFinished && r.value.winner.None?
              && r.value.playerPetHp == pets[playerPetId].hp && r.value.opponentPetHp == pets[opponentPetId].hp
              && r.value.playerPetMp == pets[playerPetId].mp && r.value.opponentPetMp == pets[opponentPetId].mp
              && r.value.playerSkillCooldowns == map[] && r.value.opponentSkillCooldowns == map[]
              && |r.value.battleLog| == 1
  {
    if playerPetId !in pets || opponentPetId !in pets then Err(PetMissingMessage)
    else Ok(Opening(playerPetId, pets[playerPetId], opponentPetId, pets[opponentPetId]))
  }

  /** The `skills` row with the given id (the id is the table's primary key). */
  function SkillById(catalog: seq<Skill>, id: int): (r: Option<Skill>)
    ensures r.Some? ==> r.value in catalog && r.value.id == id
    ensures r.None? <==> forall s :: s in catalog ==> s.id != id
  {
    if catalog == [] then None
    else if catalog[0].id == id then Some(catalog[0])
    else
      assert forall s :: s in catalog <==> s == catalog[0] || s in catalog[1..];
      SkillById(catalog[1..], id)
  }

  /** getPetAvailableSkills: the inner join of the pet's `petSkills` rows with `skills`,
      in the order of the `petSkills` rows. */
  function PetAvailableSkills(catalog: seq<Skill>, rows: seq<PetSkill>, petId: int): (r: seq<Skill>)
    ensures forall s :: s in r ==> s in catalog && PetSkill(petId, s.id) in rows
    ensures forall row :: row in rows && row.petId == petId && SkillById(catalog, row.skillId).Some? ==>
              SkillById(catalog, row.skillId).value in r
    ensures |r| <= |rows|
  {
    if rows == [] then []
    else
      var rest := PetAvailableSkills(catalog, rows[1..], petId);
      assert forall row :: row in rows <==> row == rows[0] || row in rows[1..];
      var found := SkillById(catalog, rows[0].skillId);
      if rows[0].petId == petId && found.Some? then [found.value] + rest else rest
  }

  /** `skillCooldowns[skillId] && skillCooldowns[skillId] > 0`: an absent or zero entry
      is falsy, so only a positive recorded cooldown blocks the skill. */
  predicate OnCooldown(cds: map<int, int>, skillId: int)
  {
    skillId in cds && cds[skillId] > 0
  }

  function CooldownMessage(cd: int): string
  {
    "技能冷却中，还需" + IntToString(cd) + "回合"
  }

  datatype SkillResult = SkillResult(success: bool, damage: int, message: string)

  datatype SkillStep = SkillStep(battle: Battle, result: SkillResult)

  /** executeSkill: a missing skill, too little MP or a positive cooldown fails with no
      change; otherwise the user pays the MP cost, the skill's cooldown is recorded and
      the damage is the skill's damage plus the jitter, at least 1. Nothing else changes:
      the damage is applied by the caller. */
  function SkillAttempt(b: Battle, isPlayer: bool, skillId: int, catalog: seq<Skill>, jitter: int): (r: SkillStep)
    ensures r.result.success <==>
              && SkillById(catalog, skillId).Some?
              && Mp(b, isPlayer) >= SkillById(catalog, skillId).value.mpCost
              && !OnCooldown(Cooldowns(b, isPlayer), skillId)
    ensures !r.result.success ==> r.battle == b && r.result.damage == 0
    ensures SkillById(catalog, skillId).None? ==> r.result.message == SkillMissingMessage
    ensures SkillById(catalog, skillId).Some? && Mp(b, isPlayer) < SkillById(catalog, skillId).value.mpCost ==>
              r.result.message == NotEnoughMpMessage
    ensures r.result.success ==>
              var skill := SkillById(catalog, skillId).value;
              && r.result.damage >= 1 && r.result.damage >= skill.damage + jitter
              && r.result.damage == Max(1, skill.damage + jitter)
              && Mp(r.battle, isPlayer) == Mp(b, isPlayer) - skill.mpCost
              && Cooldowns(r.battle, isPlayer) == Cooldowns(b, isPlayer)[skillId := skill.cooldown]
              && WithCooldowns(WithMp(r.battle, isPlayer, Mp(b, isPlayer)), isPlayer, Cooldowns(b, isPlayer)) == b
  {
    match SkillById(catalog, skillId)
    case None => SkillStep(b, SkillResult(false, 0, SkillMissingMessage))
    case Some(skill) =>
      var mp := Mp(b, isPlayer);
      var cds := Cooldowns(b, isPlayer);
      if mp < skill.mpCost then SkillStep(b, SkillResult(false, 0, NotEnoughMpMessage))
      else if OnCooldown(cds, skillId) then SkillStep(b, SkillResult(false, 0, CooldownMessage(cds[skillId])))
      else
        var paid := WithCooldowns(WithMp(b, isPlayer, mp - skill.mpCost), isPlayer, cds[skillId := skill.cooldown]);
        var damage := Max(1, skill.damage + jitter);
        SkillStep(paid, SkillResult(true, damage, "使用了" + skill.name + "，造成" + IntToString(damage) + "伤害！"))
  }

  /** executeDefend: the defender recovers 15 MP, never beyond its maximum; nothing else
      changes. */
  function Defended(b: Battle, isPlayer: bool): (r: Battle)
    ensures Mp(r, isPlayer) <= MaxMp(b, isPlayer)
    ensures Mp(b, isPlayer) + DefendMpRestore <= MaxMp(b, isPlayer) ==> Mp(r, isPlayer) == Mp(b, isPlayer) + DefendMpRestore
    ensures Mp(b, isPlayer) + DefendMpRestore > MaxMp(b, isPlayer) ==> Mp(r, isPlayer) == MaxMp(b, isPlayer)
    ensures Mp(b, isPlayer) <= MaxMp(b, isPlayer) ==> Mp(b, isPlayer) <= Mp(r, isPlayer)
    ensures WithMp(r, isPlayer, Mp(b, isPlayer)) == b
  {
    WithMp(b, isPlayer, Min(Mp(b, isPlayer) + DefendMpRestore, MaxMp(b, isPlayer)))
  }

  /** applyDamage: the target's HP drops by the damage, floored at zero; nothing else
      changes. */
  function Damaged(b: Battle, targetIsPlayer: bool, damage: int): (r: Battle)
    ensures Hp(r, targetIsPlayer) >= 0
    ensures Hp(b, targetIsPlayer) - damage >= 0 ==> Hp(r, targetIsPlayer) == Hp(b, targetIsPlayer) - damage
    ensures Hp(b, targetIsPlayer) - damage <= 0 ==> Hp(r, targetIsPlayer) == 0
    ensures WithHp(r, targetIsPlayer, Hp(b, targetIsPlayer)) == b
  {
    WithHp(b, targetIsPlayer, Max(0, Hp(b, targetIsPlayer) - damage))
  }

  /** Every recorded cooldown, one round shorter; the entries go below zero. */
  function Decremented(cds: map<int, int>): (r: map<int, int>)
    ensures r.Keys == cds.Keys
    ensures forall k :: k in cds ==> r[k] == cds[k] - 1
  {
    map k | k in cds :: cds[k] - 1
  }

  /** endRound: every cooldown shortened, both pets recover 10 MP up to their maximum, the
      round advances; a pet at or below zero HP ends the battle, the player's pet being
      checked first. */
  function RoundEnded(b: Battle): (r: Battle)
    ensures r.currentRound == b.currentRound + 1
    ensures r.playerPetHp == b.playerPetHp && r.opponentPetHp == b.opponentPetHp
    ensures r.playerSkillCooldowns == Decremented(b.playerSkillCooldowns)
    ensures r.opponentSkillCooldowns == Decremented(b.opponentSkillCooldowns)
    ensures r.playerPetMp == Min(b.playerPetMp + RoundMpRestore, b.playerPetMaxMp)
    ensures r.opponentPetMp == Min(b.opponentPetMp + RoundMpRestore, b.opponentPetMaxMp)
    ensures r.isFinished <==> b.isFinished || b.playerPetHp <= 0 || b.opponentPetHp <= 0
    ensures b.playerPetHp <= 0 ==> r.winner == Some(2) && r.battleLog == b.battleLog + [OpponentWonLog]
    ensures b.playerPetHp > 0 && b.opponentPetHp <= 0 ==> r.winner == Some(1) && r.battleLog == b.battleLog + [PlayerWonLog]
    ensures b.playerPetHp > 0 && b.opponentPetHp > 0 ==> r.winner == b.winner && r.battleLog == b.battleLog
  {
    var b1 := b.(
      playerSkillCooldowns := Decremented(b.playerSkillCooldowns),
      opponentSkillCooldowns := Decremented(b.opponentSkillCooldowns),
      playerPetMp := Min(b.playerPetMp + RoundMpRestore, b.playerPetMaxMp),
      opponentPetMp := Min(b.opponentPetMp + RoundMpRestore, b.opponentPetMaxMp),
      currentRound := b.currentRound + 1);
    if b1.playerPetHp <= 0 then b1.(isFinished := true, winner := Some(2), battleLog := b1.battleLog + [OpponentWonLog])
    else if b1.opponentPetHp <= 0 then b1.(isFinished := true, winner := Some(1), battleLog := b1.battleLog + [PlayerWonLog])
    else b1
  }

  /** `battleState.opponentSkillCooldowns[skill.id] || 0` */
  function CooldownOrZero(cds: map<int, int>, skillId: int): int
  {
    if skillId in cds then cds[skillId] else 0
  }

  /** The skills getAIAction considers: affordable and with a cooldown of exactly 0. */
  function AICandidates(skills: seq<Skill>, b: Battle): (r: seq<Skill>)
    ensures forall s :: s in r <==> s in skills && b.opponentPetMp >= s.mpCost && CooldownOrZero(b.opponentSkillCooldowns, s.id) == 0
    ensures |r| <= |skills|
  {
    Filter(skills, (s: Skill) => b.opponentPetMp >= s.mpCost && CooldownOrZero(b.opponentSkillCooldowns, s.id) == 0)
  }

  datatype AIAction = AISkill(skillId: int) | AIDefend

  /** getAIAction: with a candidate and a winning coin, the candidate at `roll % count`;
      otherwise defend. */
  function AIChoice(b: Battle, skills: seq<Skill>, coin: bool, roll: nat): (a: AIAction)
    ensures a.AIDefend? <==> !coin || AICandidates(skills, b) == []
    ensures a.AISkill? ==> exists s :: s in AICandidates(skills, b) && s.id == a.skillId
  {
    var candidates := AICandidates(skills, b);
    if |candidates| > 0 && coin then
      var s := candidates[roll % |candidates|];
      assert s in candidates;
      AISkill(s.id)
    else AIDefend
  }

  /** A skill whose cooldown has run below zero passes executeSkill's check but not the
      AI's filter: the AI never picks it, although using it would succeed. */
  lemma AIFilterStricterThanSkillCheck(b: Battle, skills: seq<Skill>, catalog: seq<Skill>, s: Skill, jitter: int)
    requires s in skills && SkillById(catalog, s.id) == Some(s)
    requires s.id in b.opponentSkillCooldowns && b.opponentSkillCooldowns[s.id] < 0
    requires b.opponentPetMp >= s.mpCost
    ensures s !in AICandidates(skills, b)
    ensures SkillAttempt(b, false, s.id, catalog, jitter).result.success
  {
  }

  /** n successive round ends. */
  function RoundsEnded(b: Battle, n: nat): Battle
  {
    if n == 0 then b else RoundEnded(RoundsEnded(b, n - 1))
  }

  /** After n round ends a recorded cooldown is n lower and the round n higher. */
  lemma {:induction false} RoundsEndedCountDown(b: Battle, n: nat, skillId: int)
    requires skillId in b.opponentSkillCooldowns
    ensures skillId in RoundsEnded(b, n).opponentSkillCooldowns
    ensures RoundsEnded(b, n).opponentSkillCooldowns[skillId] == b.opponentSkillCooldowns[skillId] - n
    ensures RoundsEnded(b, n).currentRound == b.currentRound + n
  {
    if n > 0 {
      RoundsEndedCountDown(b, n - 1, skillId);
    }
  }

  /** Once the AI has used a skill with cooldown c, round ends alone bring it back into
      the AI's choices after exactly c rounds and never after any other number: the
      skill is a candidate in a single round. */
  lemma AIReuseWindow(b: Battle, skills: seq<Skill>, s: Skill, n: nat)
    requires s.id in b.opponentSkillCooldowns
    requires s in AICandidates(skills, RoundsEnded(b, n))
    ensures n == b.opponentSkillCooldowns[s.id]
  {
    RoundsEndedCountDown(b, n, s.id);
  }

  /** A battle record the engine updates in place. */
  class BattleState {
    var playerPetId: int
    var playerPetHp: int
    var playerPetMp: int
    var playerPetMaxMp: int
    var playerSkillCooldowns: map<int, int>
    var opponentPetId: int
    var opponentPetHp: int
    var opponentPetMp: int
    var opponentPetMaxMp: int
    var opponentSkillCooldowns: map<int, int>
    var currentRound: int
    var battleLog: seq<string>
    var isFinished: bool
    var winner: Option<int>

    function View(): Battle
      reads this
    {
      Battle(playerPetId, playerPetHp, playerPetMp, playerPetMaxMp, playerSkillCooldowns,
             opponentPetId, opponentPetHp, opponentPetMp, opponentPetMaxMp, opponentSkillCooldowns,
             currentRound, battleLog, isFinished, winner)
    }

    constructor(b: Battle)
      ensures View() == b
    {
      playerPetId, playerPetHp, playerPetMp, playerPetMaxMp, playerSkillCooldowns :=
        b.playerPetId, b.playerPetHp, b.playerPetMp, b.playerPetMaxMp, b.playerSkillCooldowns;
      opponentPetId, opponentPetHp, opponentPetMp, opponentPetMaxMp, opponentSkillCooldowns :=
        b.opponentPetId, b.opponentPetHp, b.opponentPetMp, b.opponentPetMaxMp, b.opponentSkillCooldowns;
      currentRound, battleLog, isFinished, winner := b.currentRound, b.battleLog, b.isFinished, b.winner;
    }
  }

  /** executeSkill on a live battle record. */
  method ExecuteSkill(st: BattleState, isPlayer: bool, skillId: int, catalog: seq<Skill>, jitter: int)
    returns (res: SkillResult)
    modifies st
    ensures st.View() == SkillAttempt(old(st.View()), isPlayer, skillId, catalog, jitter).battle
    ensures res == SkillAttempt(old(st.View()), isPlayer, skillId, catalog, jitter).result
  {
    var found := SkillById(catalog, skillId);
    if found.None? {
      return SkillResult(false, 0, SkillMissingMessage);
    }
    var skill := found.value;
    var petMp := if isPlayer then st.playerPetMp else st.opponentPetMp;
    var skillCooldowns := if isPlayer then st.playerSkillCooldowns else st.opponentSkillCooldowns;
    if petMp < skill.mpCost {
      return SkillResult(false, 0, NotEnoughMpMessage);
    }
    if skillId in skillCooldowns && skillCooldowns[skillId] > 0 {
      return SkillResult(false, 0, CooldownMessage(skillCooldowns[skillId]));
    }
    if isPlayer {
      st.playerPetMp := st.playerPetMp - skill.mpCost;
      st.playerSkillCooldowns := st.playerSkillCooldowns[skillId := skill.cooldown];
    } else {
      st.opponentPetMp := st.opponentPetMp - skill.mpCost;
      st.opponentSkillCooldowns := st.opponentSkillCooldowns[skillId := skill.cooldown];
    }
    var damage := Max(1, skill.damage + jitter);
    res := SkillResult(true, damage, "使用了" + skill.name + "，造成" + IntToString(damage) + "伤害！");
  }

  /** executeDefend on a live battle record. */
  method ExecuteDefend(st: BattleState, isPlayer: bool) returns (success: bool, message: string)
    modifies st
    ensures st.View() == Defended(old(st.View()), isPlayer)
    ensures success && message == DefendMessage
  {
    if isPlayer {
      st.playerPetMp := Min(st.playerPetMp + DefendMpRestore, st.playerPetMaxMp);
    } else {
      st.opponentPetMp := Min(st.opponentPetMp + DefendMpRestore, st.opponentPetMaxMp);
    }
    success, message := true, DefendMessage;
  }

  /** applyDamage on a live battle record. */
  method ApplyDamage(st: BattleState, targetIsPlayer: bool, damage: int)
    modifies st
    ensures st.View() == Damaged(old(st.View()), targetIsPlayer, damage)
  {
    if targetIsPlayer {
      st.playerPetHp := Max(0, st.playerPetHp - damage);
    } else {
      st.opponentPetHp := Max(0, st.opponentPetHp - damage);
    }
  }

  /** The `Object.keys(cooldowns).forEach(id => cooldowns[id]--)` loop of endRound. */
  method DecrementCooldowns(cds: map<int, int>) returns (r: map<int, int>)
    ensures r == Decremented(cds)
  {
    r := cds;
    var pending := cds.Keys;
    while pending != {}
      invariant pending <= cds.Keys && r.Keys == cds.Keys
      invariant forall k :: k in cds ==> r[k] == if k in pending then cds[k] else cds[k] - 1
      decreases pending
    {
      MemberOfNonEmpty(pending);
      var k :| k in pending;
      r := r[k := r[k] - 1];
      pending := pending - {k};
    }
    assert forall k :: k in r ==> r[k] == Decremented(cds)[k];
  }

  lemma MemberOfNonEmpty(s: set<int>)
    requires s != {}
    ensures exists k :: k in s
  {
    if forall k :: k !in s {
      assert false;
    }
  }

  /** endRound on a live battle record. */
  method EndRound(st: BattleState)
    modifies st
    ensures st.View() == RoundEnded(old(st.View()))
  {
    ghost var b := st.View();
    st.playerSkillCooldowns := DecrementCooldowns(st.playerSkillCooldowns);
    st.opponentSkillCooldowns := DecrementCooldowns(st.opponentSkillCooldowns);
    st.playerPetMp := Min(st.playerPetMp + RoundMpRestore, st.playerPetMaxMp);
    st.opponentPetMp := Min(st.opponentPetMp + RoundMpRestore, st.opponentPetMaxMp);
    st.currentRound := st.currentRound + 1;
    assert st.View() == b.(
      playerSkillCooldowns := Decremented(b.playerSkillCooldowns),
      opponentSkillCooldowns := Decremented(b.opponentSkillCooldowns),
      playerPetMp := Min(b.playerPetMp + RoundMpRestore, b.playerPetMaxMp),
      opponentPetMp := Min(b.opponentPetMp + RoundMpRestore, b.opponentPetMaxMp),
      currentRound := b.currentRound + 1);
    if st.playerPetHp <= 0 {
      st.isFinished, st.winner := true, Some(2);
      st.battleLog := st.battleLog + [OpponentWonLog];
    } else if st.opponentPetHp <= 0 {
      st.isFinished, st.winner := true, Some(1);
      st.battleLog := st.battleLog + [PlayerWonLog];
    }
  }
}
