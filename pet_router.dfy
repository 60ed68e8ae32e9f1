/** The pet procedures with logic of their own (server/petRouter.ts): fetching or
    creating the caller's pet, database matchmaking, and the statistics written at the
    end of a battle. `userId` is the authenticated caller. */
module PetRouter {
  import opened Wrappers
  import opened Schema
  import opened PetDb

  const DefaultPetName: string := "Q宠大侠"
  const NoOpponentMessage: string := "暂无对手，请稍后再试"

  /** getPet: the caller's pet, created under the default name when there is none. */
  method GetPet(db: GameDb, userId: int) returns (pet: Option<Pet>)
    requires db.Valid()
    modifies db`pets, db`nextPetId
    ensures db.Valid()
    ensures old(UserPet(db.pets, db.nextPetId, userId)).Some? ==>
              pet == old(UserPet(db.pets, db.nextPetId, userId)) && db.pets == old(db.pets) && db.nextPetId == old(db.nextPetId)
    ensures old(UserPet(db.pets, db.nextPetId, userId)).None? ==>
              pet == Some(NewPet(old(db.nextPetId), userId, DefaultPetName))
              && db.pets == old(db.pets)[old(db.nextPetId) := NewPet(old(db.nextPetId), userId, DefaultPetName)]
  {
    pet := UserPet(db.pets, db.nextPetId, userId);
    if pet.None? {
      pet := CreateUserPet(db, userId, DefaultPetName);
    }
  }

  datatype MatchResult = Matched(opponent: OnlinePlayer, matchId: string) | NoOpponent(message: string)

  /** The match id `<userId>-<opponentId>-<now>`. */
  function MatchId(userId: int, opponentId: int, now: int): string
  {
    IntToString(userId) + "-" + IntToString(opponentId) + "-" + IntToString(now)
  }

  /** startMatching: the caller is marked searching; with an opponent the caller (and
      only the caller) becomes battling; without one the caller stays searching. */
  method StartMatching(db: GameDb, userId: int, petId: int, level: int, now: int) returns (r: MatchResult)
    requires db.Valid()
    modifies db`onlinePlayers
    ensures db.Valid()
    ensures var searching := Upserted(old(db.onlinePlayers), OnlinePlayer(userId, petId, level, "searching", now));
            var opponent := RandomOpponent(searching, userId, level, now);
            && (opponent.None? ==> r == NoOpponent(NoOpponentMessage) && db.onlinePlayers == searching)
            && (opponent.Some? ==>
                  r == Matched(opponent.value, MatchId(userId, opponent.value.userId, now))
                  && db.onlinePlayers == Upserted(searching, OnlinePlayer(userId, petId, level, "battling", now)))
  {
    var _ := UpdatePlayerOnlineStatus(db, userId, petId, level, "searching", now);
    var opponent := RandomOpponent(db.onlinePlayers, userId, level, now);
    if opponent.Some? {
      var _ := UpdatePlayerOnlineStatus(db, userId, petId, level, "battling", now);
      r := Matched(opponent.value, MatchId(userId, opponent.value.userId, now));
    } else {
      r := NoOpponent(NoOpponentMessage);
    }
  }

  /** Matching leaves the chosen opponent's row as it was, idle, and puts the caller's
      row, now battling, in the table. */
  lemma MatchingTouchesOnlyCaller(rows: seq<OnlinePlayer>, userId: int, petId: int, level: int, now: int)
    requires UniqueUsers(rows)
    requires RandomOpponent(Upserted(rows, OnlinePlayer(userId, petId, level, "searching", now)), userId, level, now).Some?
    ensures var searching := Upserted(rows, OnlinePlayer(userId, petId, level, "searching", now));
            var opponent := RandomOpponent(searching, userId, level, now).value;
            var after := Upserted(searching, OnlinePlayer(userId, petId, level, "battling", now));
            opponent in rows && opponent in after && opponent.status == "idle" && opponent.userId != userId
            && OnlinePlayer(userId, petId, level, "battling", now) in after
  {
  }

  /** The updates endBattle writes: one more battle, the earnings added, and on a win
      one more win and a longer streak, on a loss a streak of zero. */
  function BattleUpdates(stats: PlayerStats, isWin: bool, goldEarned: int, expEarned: int): StatsPatch
  {
    StatsPatch(
      Some(stats.totalBattles + 1),
      if isWin then Some(stats.totalWins + 1) else None,
      if isWin then Some(stats.currentWinStreak + 1) else Some(0),
      if isWin then Some(Max(stats.currentWinStreak + 1, stats.maxWinStreak)) else None,
      Some(stats.totalGoldEarned + goldEarned),
      Some(stats.totalExpEarned + expEarned),
      None,
      None)
  }

  /** The statistics row after endBattle has written its updates. */
  function AfterBattle(stats: PlayerStats, isWin: bool, goldEarned: int, expEarned: int): (r: PlayerStats)
    ensures r.userId == stats.userId && r.totalBattles == stats.totalBattles + 1
    ensures r.totalGoldEarned == stats.totalGoldEarned + goldEarned
    ensures r.totalExpEarned == stats.totalExpEarned + expEarned
    ensures r.totalPotionsUsed == stats.totalPotionsUsed && r.weaponsCollected == stats.weaponsCollected
    ensures isWin ==> r.totalWins == stats.totalWins + 1 && r.currentWinStreak == stats.currentWinStreak + 1
                      && r.maxWinStreak == Max(r.currentWinStreak, stats.maxWinStreak)
    ensures !isWin ==> r.currentWinStreak == 0 && r.totalWins == stats.totalWins && r.maxWinStreak == stats.maxWinStreak
  {
    Patched(stats, BattleUpdates(stats, isWin, goldEarned, expEarned))
  }

  /** Wins never exceed battles, and the current streak never exceeds the best streak,
      which never exceeds the wins. */
  predicate StatsConsistent(s: PlayerStats)
  {
    0 <= s.currentWinStreak <= s.maxWinStreak <= s.totalWins <= s.totalBattles
  }

  /** endBattle keeps the statistics consistent, starting from any consistent row and in
      particular from the all-zero row it creates for a new player. */
  lemma AfterBattleKeepsConsistent(stats: PlayerStats, isWin: bool, goldEarned: int, expEarned: int)
    requires StatsConsistent(stats)
    ensures StatsConsistent(AfterBattle(stats, isWin, goldEarned, expEarned))
    ensures StatsConsistent(ZeroStats(stats.userId))
  {
  }

  /** endBattle: the caller goes back to idle and the statistics row, created all-zero
      if missing, receives the battle's updates. */
  method EndBattle(db: GameDb, userId: int, petId: int, level: int, isWin: bool, goldEarned: int, expEarned: int, now: int)
    returns (success: bool)
    requires db.Valid()
    modifies db`onlinePlayers, db`playerStats
    ensures db.Valid() && success
    ensures db.onlinePlayers == Upserted(old(db.onlinePlayers), OnlinePlayer(userId, petId, level, "idle", now))
    ensures var before := if userId in old(db.playerStats) then old(db.playerStats)[userId] else ZeroStats(userId);
            db.playerStats == old(db.playerStats)[userId := AfterBattle(before, isWin, goldEarned, expEarned)]
  {
    var _ := UpdatePlayerOnlineStatus(db, userId, petId, level, "idle", now);
    var stats: PlayerStats;
    if userId in db.playerStats {
      stats := db.playerStats[userId];
    } else {
      var created := CreatePlayerStats(db, userId);
      stats := created.value;
    }
    var _ := UpdatePlayerStats(db, userId, BattleUpdates(stats, isWin, goldEarned, expEarned));
    success := true;
  }
}
