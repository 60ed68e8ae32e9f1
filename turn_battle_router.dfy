/** The turn-based battle procedures (server/turnBasedBattleRouter.ts). The router keeps
    the live battles in an in-memory map from battle id to battle record; here it is the
    class BattleRouter. A player's action runs a whole round: the player's move, the
    AI's move and the round end, stopping early when a pet is beaten. */
module TurnBattleRouter {
  import opened Wrappers
  import opened Schema
  import opened TurnBattle

  const BattleMissingMessage: string := "战斗不存在"
  const BattleOverMessage: string := "战斗已结束"
  const OpponentDefendsMessage: string := "对手防守"
  const PlayerVictoryLog: string := "战斗结束！您的宠物获胜！"
  const PlayerDefeatLog: string := "战斗结束！您的宠物被击败了！"
  const SurrenderLog: string := "您已放弃战斗！"
  const SurrenderMessage: string := "已放弃战斗"
  const WonMessage: string := "您赢得了战斗！"
  const LostMessage: string := "您输掉了战斗！"

  /** generateBattleId: `battle-<min>-<max>-<now>`. */
  function BattleId(userId: int, opponentId: int, now: int): string
  {
    "battle-" + IntToString(Min(userId, opponentId)) + "-" + IntToString(Max(userId, opponentId)) + "-" + IntToString(now)
  }

  /** The id does not depend on which of the two users asks. */
  lemma BattleIdSymmetric(userId: int, opponentId: int, now: int)
    ensures BattleId(userId, opponentId, now) == BattleId(opponentId, userId, now)
  {
  }

  lemma DashAfter(a: string, r: string)
    ensures (a + "-" + r)[|a|] == '-'
    ensures (a + "-" + r)[..|a|] == a && (a + "-" + r)[|a| + 1..] == r
  {
  }

  /** A run of digits followed by a dash can be split in only one way. */
  lemma SplitAfterDigits(a: string, r: string, a2: string, r2: string)
    requires forall i :: 0 <= i < |a| ==> IsDigit(a[i])
    requires forall i :: 0 <= i < |a2| ==> IsDigit(a2[i])
    requires a + "-" + r == a2 + "-" + r2
    ensures a == a2 && r == r2
  {
    DashAfter(a, r);
    DashAfter(a2, r2);
  }

  lemma DropPrefix(p: string, x: string, y: string)
    requires p + x == p + y
    ensures x == y
  {
    assert (p + x)[|p|..] == x;
    assert (p + y)[|p|..] == y;
  }

  lemma BattleIdParts(a: string, b: string, c: string)
    ensures "battle-" + a + "-" + b + "-" + c == "battle-" + (a + "-" + (b + "-" + c))
  {
  }

  /** Non-negative ids and times: two battle ids are equal only for the same pair of
      users in the same millisecond. */
  lemma BattleIdInjective(u: nat, o: nat, now: nat, u2: nat, o2: nat, now2: nat)
    requires BattleId(u, o, now) == BattleId(u2, o2, now2)
    ensures Min(u, o) == Min(u2, o2) && Max(u, o) == Max(u2, o2) && now == now2
  {
    var a, b, c := NatToString(Min(u, o)), NatToString(Max(u, o)), NatToString(now);
    var a2, b2, c2 := NatToString(Min(u2, o2)), NatToString(Max(u2, o2)), NatToString(now2);
    BattleIdParts(a, b, c);
    BattleIdParts(a2, b2, c2);
    DropPrefix("battle-", a + "-" + (b + "-" + c), a2 + "-" + (b2 + "-" + c2));
    SplitAfterDigits(a, b + "-" + c, a2, b2 + "-" + c2);
    SplitAfterDigits(b, c, b2, c2);
    NatToStringInjective(Min(u, o), Min(u2, o2));
    NatToStringInjective(Max(u, o), Max(u2, o2));
    NatToStringInjective(now, now2);
  }

  /** initBattle asks for the id of the caller against user 0: two initBattle calls get
      the same id exactly when the same caller makes them in the same millisecond, and
      the later one then replaces the earlier battle. */
  lemma InitBattleIdsCollide(u: nat, now: nat, u2: nat, now2: nat)
    ensures BattleId(u, 0, now) == BattleId(u2, 0, now2) <==> u == u2 && now == now2
  {
    if BattleId(u, 0, now) == BattleId(u2, 0, now2) {
      BattleIdInjective(u, 0, now, u2, 0, now2);
    }
  }

  datatype ActionType = SkillAction | DefendAction

  /** The random draws of one round: the jitter of the player's damage, the AI's coin
      and roll, and the jitter of the AI's damage. */
  datatype Dice = Dice(playerJitter: int, aiCoin: bool, aiRoll: nat, aiJitter: int)

  /** One side's move: the battle after it, whether it went through, and its message. */
  datatype Move = Move(battle: Battle, ok: bool, message: string)

  /** The fields neither side's move touches. */
  predicate SameRoundAndLog(b: Battle, b2: Battle)
  {
    b2.currentRound == b.currentRound && b2.battleLog == b.battleLog
    && b2.isFinished == b.isFinished && b2.winner == b.winner
  }

  /** The player's move: a skill (only with a non-zero skill id) that hits the opponent,
      a defence, or, for a skill action without a usable id, nothing at all. A failed
      skill stops the action with no change. The move leaves the player's HP, the
      opponent's MP and cooldowns and the round as they were, and never raises the
      opponent's HP. */
  function PlayerMove(b: Battle, actionType: ActionType, skillId: Option<int>, catalog: seq<Skill>, jitter: int): (m: Move)
    ensures !m.ok ==> m.battle == b
    ensures SameRoundAndLog(b, m.battle) && m.battle.playerPetHp == b.playerPetHp
    ensures m.battle.opponentPetMp == b.opponentPetMp && m.battle.opponentSkillCooldowns == b.opponentSkillCooldowns
    ensures b.opponentPetHp >= 0 ==> 0 <= m.battle.opponentPetHp <= b.opponentPetHp
    ensures actionType == SkillAction && skillId.Some? && skillId.value != 0 ==>
              m.ok == SkillAttempt(b, true, skillId.value, catalog, jitter).result.success
    ensures actionType == DefendAction ==> m.ok && m.battle == Defended(b, true) && m.message == DefendMessage
    ensures actionType == SkillAction && skillId.Some? && skillId.value != 0 && m.ok ==>
              var step := SkillAttempt(b, true, skillId.value, catalog, jitter);
              m.battle == Damaged(step.battle, false, step.result.damage) && m.message == step.result.message
    ensures actionType == SkillAction && (skillId.None? || skillId.value == 0) ==> m.ok && m.battle == b
  {
    if actionType == SkillAction && skillId.Some? && skillId.value != 0 then
      var step := SkillAttempt(b, true, skillId.value, catalog, jitter);
      if !step.result.success then Move(b, false, step.result.message)
      else Move(Damaged(step.battle, false, step.result.damage), true, step.result.message)
    else if actionType == DefendAction then Move(Defended(b, true), true, DefendMessage)
    else Move(b, true, "")
  }

  /** The AI's move: the chosen skill hits the player; a defence, or a chosen skill that
      fails, makes the opponent defend. The move leaves the opponent's HP, the player's
      MP and cooldowns and the round as they were, and never raises the player's HP. */
  function OpponentMove(b: Battle, aiSkills: seq<Skill>, catalog: seq<Skill>, dice: Dice): (m: Move)
    ensures m.ok
    ensures SameRoundAndLog(b, m.battle) && m.battle.opponentPetHp == b.opponentPetHp
    ensures m.battle.playerPetMp == b.playerPetMp && m.battle.playerSkillCooldowns == b.playerSkillCooldowns
    ensures b.playerPetHp >= 0 ==> 0 <= m.battle.playerPetHp <= b.playerPetHp
    ensures AIChoice(b, aiSkills, dice.aiCoin, dice.aiRoll).AIDefend? ==>
              m.battle == Defended(b, false) && m.message == OpponentDefendsMessage
    ensures var choice := AIChoice(b, aiSkills, dice.aiCoin, dice.aiRoll);
            choice.AISkill? && choice.skillId == 0 ==>
              m.battle == Defended(b, false) && m.message == OpponentDefendsMessage
    ensures var choice := AIChoice(b, aiSkills, dice.aiCoin, dice.aiRoll);
            choice.AISkill? && choice.skillId != 0 ==>
              var step := SkillAttempt(b, false, choice.skillId, catalog, dice.aiJitter);
              && (step.result.success ==>
                    m.battle == Damaged(step.battle, true, step.result.damage) && m.message == step.result.message)
              && (!step.result.success ==> m.battle == Defended(b, false) && m.message == OpponentDefendsMessage)
  {
    var choice := AIChoice(b, aiSkills, dice.aiCoin, dice.aiRoll);
    if choice.AISkill? && choice.skillId != 0 then
      var step := SkillAttempt(b, false, choice.skillId, catalog, dice.aiJitter);
      if step.result.success then Move(Damaged(step.battle, true, step.result.damage), true, step.result.message)
      else Move(Defended(step.battle, false), true, OpponentDefendsMessage)
    else Move(Defended(b, false), true, OpponentDefendsMessage)
  }

  datatype ActionReply = ActionFailed(message: string) | ActionDone(isFinished: bool)

  datatype Turn = Turn(battle: Battle, reply: ActionReply)

  /** playerAction on a battle that exists: refused when finished; the player's move
      (a failed skill ends the action with no change) and its log line; a beaten opponent
      ends the battle; the AI's move and its log line; a beaten player ends the battle;
      otherwise the round ends. */
  function PlayerTurn(b: Battle, actionType: ActionType, skillId: Option<int>,
                      catalog: seq<Skill>, aiSkills: seq<Skill>, dice: Dice): Turn
  {
    if b.isFinished then Turn(b, ActionFailed(BattleOverMessage))
    else
      var p := PlayerMove(b, actionType, skillId, catalog, dice.playerJitter);
      if !p.ok then Turn(b, ActionFailed(p.message))
      else
        var b1 := p.battle.(battleLog := p.battle.battleLog + ["玩家: " + p.message]);
        if b1.opponentPetHp <= 0 then
          Turn(b1.(isFinished := true, winner := Some(1), battleLog := b1.battleLog + [PlayerVictoryLog]), ActionDone(true))
        else
          var o := OpponentMove(b1, aiSkills, catalog, dice);
          var b2 := o.battle.(battleLog := o.battle.battleLog + ["对手: " + o.message]);
          if b2.playerPetHp <= 0 then
            Turn(b2.(isFinished := true, winner := Some(2), battleLog := b2.battleLog + [PlayerDefeatLog]), ActionDone(true))
          else
            var b3 := RoundEnded(b2);
            Turn(b3, ActionDone(b3.isFinished))
  }

  /** A refused action changes nothing; a finished battle refuses every action. */
  lemma RefusedActionChangesNothing(b: Battle, actionType: ActionType, skillId: Option<int>,
                                    catalog: seq<Skill>, aiSkills: seq<Skill>, dice: Dice)
    ensures var t := PlayerTurn(b, actionType, skillId, catalog, aiSkills, dice);
            t.reply.ActionFailed? ==> t.battle == b
    ensures b.isFinished ==> PlayerTurn(b, actionType, skillId, catalog, aiSkills, dice) == Turn(b, ActionFailed(BattleOverMessage))
  {
  }

  /** An accepted action either finishes the battle in the same round with the beaten
      pet's opponent as winner, or leaves it open and advances the round by one. The
      log only grows, with the player's line first. */
  lemma AcceptedActionOutcome(b: Battle, actionType: ActionType, skillId: Option<int>,
                              catalog: seq<Skill>, aiSkills: seq<Skill>, dice: Dice)
    requires !b.isFinished
    ensures var t := PlayerTurn(b, actionType, skillId, catalog, aiSkills, dice);
            t.reply.ActionDone? ==>
              && t.reply.isFinished == t.battle.isFinished
              && |t.battle.battleLog| > |b.battleLog| && t.battle.battleLog[..|b.battleLog|] == b.battleLog
              && t.battle.battleLog[|b.battleLog|][..4] == "玩家: "
              && (t.battle.isFinished ==>
                    && t.battle.currentRound == b.currentRound
                    && ((t.battle.winner == Some(1) && t.battle.opponentPetHp <= 0)
                        || (t.battle.winner == Some(2) && t.battle.playerPetHp <= 0)))
              && (!t.battle.isFinished ==>
                    t.battle.currentRound == b.currentRound + 1 && t.battle.winner == b.winner
                    && t.battle.playerPetHp > 0 && t.battle.opponentPetHp > 0)
    ensures var t := PlayerTurn(b, actionType, skillId, catalog, aiSkills, dice);
            var p := PlayerMove(b, actionType, skillId, catalog, dice.playerJitter);
            t.reply.ActionDone? && p.battle.opponentPetHp > 0 ==>
              && |t.battle.battleLog| >= |b.battleLog| + 2
              && t.battle.battleLog[|b.battleLog| + 1][..4] == "对手: "
              && (!t.battle.isFinished ==> |t.battle.battleLog| == |b.battleLog| + 2)
  {
    var p := PlayerMove(b, actionType, skillId, catalog, dice.playerJitter);
    if p.ok {
      var line := "玩家: " + p.message;
      assert line[..4] == "玩家: ";
      var b1 := p.battle.(battleLog := p.battle.battleLog + [line]);
      assert b1.battleLog[..|b.battleLog|] == b.battleLog;
      if b1.opponentPetHp > 0 {
        var o := OpponentMove(b1, aiSkills, catalog, dice);
        var aiLine := "对手: " + o.message;
        assert aiLine[..4] == "对手: ";
        var b2 := o.battle.(battleLog := o.battle.battleLog + [aiLine]);
        assert b2.battleLog == b.battleLog + [line, aiLine];
        assert b2.battleLog[..|b.battleLog|] == b.battleLog;
        assert b2.battleLog[|b.battleLog|] == line;
        assert b2.battleLog[|b.battleLog| + 1] == aiLine;
      }
    }
  }

  /** The player's move knocking the opponent out is the only way the player wins an
      action, and then the battle ends at once: the AI does not move, so the player's HP,
      the opponent's MP and cooldowns and the round stay as they were, and the victory
      line follows the player's line with no line for the opponent. */
  lemma KnockoutEndsBeforeOpponent(b: Battle, actionType: ActionType, skillId: Option<int>,
                                   catalog: seq<Skill>, aiSkills: seq<Skill>, dice: Dice)
    requires !b.isFinished
    ensures var t := PlayerTurn(b, actionType, skillId, catalog, aiSkills, dice);
            var p := PlayerMove(b, actionType, skillId, catalog, dice.playerJitter);
            t.reply.ActionDone? ==> (t.battle.isFinished && t.battle.winner == Some(1) <==> p.battle.opponentPetHp <= 0)
    ensures var t := PlayerTurn(b, actionType, skillId, catalog, aiSkills, dice);
            var p := PlayerMove(b, actionType, skillId, catalog, dice.playerJitter);
            t.reply.ActionDone? && p.battle.opponentPetHp <= 0 ==>
              && t.battle.playerPetHp == b.playerPetHp
              && t.battle.opponentPetMp == b.opponentPetMp
              && t.battle.opponentSkillCooldowns == b.opponentSkillCooldowns
              && t.battle.currentRound == b.currentRound
              && |t.battle.battleLog| == |b.battleLog| + 2
              && t.battle.battleLog[|b.battleLog| + 1] == PlayerVictoryLog
  {
    var p := PlayerMove(b, actionType, skillId, catalog, dice.playerJitter);
    if p.ok && p.battle.opponentPetHp > 0 {
      var b1 := p.battle.(battleLog := p.battle.battleLog + ["玩家: " + p.message]);
      var o := OpponentMove(b1, aiSkills, catalog, dice);
      var b2 := o.battle.(battleLog := o.battle.battleLog + ["对手: " + o.message]);
      assert b2.opponentPetHp > 0 && !b2.isFinished;
    }
  }

  /** Pets at non-negative HP never gain HP in an action, and never drop below zero. */
  lemma ActionNeverHeals(b: Battle, actionType: ActionType, skillId: Option<int>,
                         catalog: seq<Skill>, aiSkills: seq<Skill>, dice: Dice)
    requires b.playerPetHp >= 0 && b.opponentPetHp >= 0
    ensures var t := PlayerTurn(b, actionType, skillId, catalog, aiSkills, dice);
            0 <= t.battle.playerPetHp <= b.playerPetHp && 0 <= t.battle.opponentPetHp <= b.opponentPetHp
  {
  }

  /** surrenderBattle on an existing battle: finished, lost, one more log line, whatever
      the battle's state was, even one the player had already won. */
  function Surrendered(b: Battle): (r: Battle)
    ensures r.isFinished && r.winner == Some(2)
    ensures r.battleLog == b.battleLog + [SurrenderLog]
    ensures r.(isFinished := b.isFinished, winner := b.winner, battleLog := b.battleLog) == b
  {
    b.(isFinished := true, winner := Some(2), battleLog := b.battleLog + [SurrenderLog])
  }

  /** The stored pet with its HP set, when the pet exists (an update of a missing row
      writes nothing). */
  function HpWritten(pets: map<int, Pet>, petId: int, hp: int): (r: map<int, Pet>)
    ensures r.Keys == pets.Keys
    ensures petId in pets ==> r == pets[petId := pets[petId].(hp := hp)]
    ensures forall id :: id in pets && id != petId ==> r[id] == pets[id]
  {
    if petId in pets then pets[petId := pets[petId].(hp := hp)] else pets
  }

  /** The reply of endBattle. */
  datatype EndReply = EndReply(winner: Option<int>, message: string)

  /** endBattle's message: a win only when the winner is the player; an unfinished
      battle reads as lost. */
  function EndMessage(winner: Option<int>): (m: string)
    ensures m == WonMessage <==> winner == Some(1)
    ensures m == LostMessage <==> winner != Some(1)
  {
    if winner == Some(1) then WonMessage else LostMessage
  }

  /** The player's move on a live battle record, with PlayerMove's outcome. */
  method PlayerStep(st: BattleState, actionType: ActionType, skillId: Option<int>, catalog: seq<Skill>, jitter: int)
    returns (ok: bool, message: string)
    modifies st
    ensures Move(st.View(), ok, message) == PlayerMove(old(st.View()), actionType, skillId, catalog, jitter)
  {
    ok, message := true, "";
    if actionType == SkillAction && skillId.Some? && skillId.value != 0 {
      var res := ExecuteSkill(st, true, skillId.value, catalog, jitter);
      if !res.success {
        return false, res.message;
      }
      message := res.message;
      ApplyDamage(st, false, res.damage);
    } else if actionType == DefendAction {
      var _, m := ExecuteDefend(st, true);
      message := m;
    }
  }

  /** The AI's move on a live battle record, with OpponentMove's outcome. */
  method OpponentStep(st: BattleState, aiSkills: seq<Skill>, catalog: seq<Skill>, dice: Dice) returns (message: string)
    modifies st
    ensures Move(st.View(), true, message) == OpponentMove(old(st.View()), aiSkills, catalog, dice)
  {
    var choice := AIChoice(st.View(), aiSkills, dice.aiCoin, dice.aiRoll);
    if choice.AISkill? && choice.skillId != 0 {
      var res := ExecuteSkill(st, false, choice.skillId, catalog, dice.aiJitter);
      if res.success {
        message := res.message;
        ApplyDamage(st, true, res.damage);
      } else {
        message := OpponentDefendsMessage;
        var _, _ := ExecuteDefend(st, false);
      }
    } else {
      message := OpponentDefendsMessage;
      var _, _ := ExecuteDefend(st, false);
    }
  }

  /** The body of playerAction once the battle is found. */
  method RunTurn(st: BattleState, actionType: ActionType, skillId: Option<int>,
                 catalog: seq<Skill>, aiSkills: seq<Skill>, dice: Dice) returns (reply: ActionReply)
    modifies st
    ensures Turn(st.View(), reply) == PlayerTurn(old(st.View()), actionType, skillId, catalog, aiSkills, dice)
  {
    if st.isFinished {
      return ActionFailed(BattleOverMessage);
    }
    var ok, playerMessage := PlayerStep(st, actionType, skillId, catalog, dice.playerJitter);
    if !ok {
      return ActionFailed(playerMessage);
    }
    st.battleLog := st.battleLog + ["玩家: " + playerMessage];
    if st.opponentPetHp <= 0 {
      st.isFinished, st.winner := true, Some(1);
      st.battleLog := st.battleLog + [PlayerVictoryLog];
      return ActionDone(true);
    }
    var opponentMessage := OpponentStep(st, aiSkills, catalog, dice);
    st.battleLog := st.battleLog + ["对手: " + opponentMessage];
    if st.playerPetHp <= 0 {
      st.isFinished, st.winner := true, Some(2);
      st.battleLog := st.battleLog + [PlayerDefeatLog];
      return ActionDone(true);
    }
    EndRound(st);
    reply := ActionDone(st.isFinished);
  }

  class BattleRouter {
    var activeBattles: map<string, BattleState>

    /** Each live battle record belongs to one id. */
    ghost predicate Valid()
      reads this
    {
      forall i, j :: i in activeBattles && j in activeBattles && i != j ==> activeBattles[i] != activeBattles[j]
    }

    constructor()
      ensures Valid() && activeBattles == map[]
    {
      activeBattles := map[];
    }

    /** initBattle: a battle between two stored pets under the caller's id for this
        millisecond, replacing any battle under that id; a missing pet is reported. */
    method InitBattle(db: GameDb, userId: int, playerPetId: int, opponentPetId: int, now: int)
      returns (r: Result<string>)
      requires Valid()
      modifies this
      ensures Valid()
      ensures InitializeBattle(db.pets, playerPetId, opponentPetId).Err? ==>
                r == Err(PetMissingMessage) && activeBattles == old(activeBattles)
      ensures InitializeBattle(db.pets, playerPetId, opponentPetId).Ok? ==>
                && r == Ok(BattleId(userId, 0, now))
                && activeBattles.Keys == old(activeBattles.Keys) + {r.value}
                && fresh(activeBattles[r.value])
                && activeBattles[r.value].View() == InitializeBattle(db.pets, playerPetId, opponentPetId).value
                && forall id :: id in old(activeBattles) && id != r.value ==> activeBattles[id] == old(activeBattles[id])
    {
      var start := InitializeBattle(db.pets, playerPetId, opponentPetId);
      if start.Err? {
        return Err(start.message);
      }
      var st := new BattleState(start.value);
      var battleId := BattleId(userId, 0, now);
      activeBattles := activeBattles[battleId := st];
      r := Ok(battleId);
    }

    /** playerAction: an unknown id is reported; otherwise the battle record becomes the
        battle after the round PlayerTurn describes, using the skills table and the
        opponent pet's learned skills. No other battle changes. */
    method PlayerAction(db: GameDb, battleId: string, actionType: ActionType, skillId: Option<int>, dice: Dice)
      returns (reply: ActionReply)
      requires Valid()
      modifies if battleId in activeBattles then {activeBattles[battleId]} else {}
      ensures Valid()
      ensures battleId !in activeBattles ==> reply == ActionFailed(BattleMissingMessage)
      ensures battleId in activeBattles ==>
                var st := activeBattles[battleId];
                var t := PlayerTurn(old(st.View()), actionType, skillId, db.skills,
                                    PetAvailableSkills(db.skills, db.petSkills, old(st.opponentPetId)), dice);
                st.View() == t.battle && reply == t.reply
      ensures forall id :: id in activeBattles && id != battleId ==> activeBattles[id].View() == old(activeBattles[id].View())
    {
      if battleId !in activeBattles {
        return ActionFailed(BattleMissingMessage);
      }
      var st := activeBattles[battleId];
      var aiSkills := PetAvailableSkills(db.skills, db.petSkills, st.opponentPetId);
      reply := RunTurn(st, actionType, skillId, db.skills, aiSkills, dice);
    }

    /** getBattleState: the battle under the id, or the missing-battle message. */
    function GetBattleState(battleId: string): (r: Result<Battle>)
      reads this, activeBattles.Values
      ensures r.Err? <==> battleId !in activeBattles
      ensures r.Err? ==> r.message == BattleMissingMessage
      ensures r.Ok? ==> r.value == activeBattles[battleId].View()
    {
      if battleId in activeBattles then Ok(activeBattles[battleId].View()) else Err(BattleMissingMessage)
    }

    /** endBattle: the battle's HP values are written to the two pets (the opponent's
        last, so it wins when both ids are the same pet), the battle is dropped and the
        reply carries the winner; an unknown id is reported with no change. */
    method EndBattle(db: GameDb, battleId: string, playerPetId: int, opponentPetId: int)
      returns (r: Result<EndReply>)
      requires Valid() && db.Valid()
      modifies this, db`pets
      ensures Valid() && db.Valid()
      ensures battleId !in old(activeBattles) ==>
                r == Err(BattleMissingMessage) && activeBattles == old(activeBattles) && db.pets == old(db.pets)
      ensures battleId in old(activeBattles) ==>
                var b := old(activeBattles[battleId].View());
                && r == Ok(EndReply(b.winner, EndMessage(b.winner)))
                && db.pets == HpWritten(HpWritten(old(db.pets), playerPetId, b.playerPetHp), opponentPetId, b.opponentPetHp)
                && activeBattles == old(activeBattles) - {battleId}
    {
      if battleId !in activeBattles {
        return Err(BattleMissingMessage);
      }
      var st := activeBattles[battleId];
      if playerPetId in db.pets {
        db.RewritePet(playerPetId, db.pets[playerPetId].(hp := st.playerPetHp));
      }
      if opponentPetId in db.pets {
        db.RewritePet(opponentPetId, db.pets[opponentPetId].(hp := st.opponentPetHp));
      }
      activeBattles := activeBattles - {battleId};
      r := Ok(EndReply(st.winner, EndMessage(st.winner)));
    }

    /** surrenderBattle: the battle becomes Surrendered; an unknown id is reported. */
    method SurrenderBattle(battleId: string) returns (r: Result<string>)
      requires Valid()
      modifies if battleId in activeBattles then {activeBattles[battleId]} else {}
      ensures Valid()
      ensures battleId !in activeBattles ==> r == Err(BattleMissingMessage)
      ensures battleId in activeBattles ==>
                r == Ok(SurrenderMessage) && activeBattles[battleId].View() == Surrendered(old(activeBattles[battleId].View()))
    {
      if battleId !in activeBattles {
        return Err(BattleMissingMessage);
      }
      var st := activeBattles[battleId];
      st.isFinished, st.winner := true, Some(2);
      st.battleLog := st.battleLog + [SurrenderLog];
      r := Ok(SurrenderMessage);
    }
  }

  /** A surrender after a win turns the battle into a loss: endBattle then reports
      winner 2 and the losing message. */
  lemma SurrenderAfterWinIsLoss(b: Battle)
    requires b.isFinished && b.winner == Some(1)
    ensures Surrendered(b).winner == Some(2) && EndMessage(Surrendered(b).winner) == LostMessage
  {
  }
}
