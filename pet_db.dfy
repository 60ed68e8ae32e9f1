/** Pet rows, learned skills, player statistics and the online-player table
    (server/petDb.ts). Each operation reads or writes the in-memory tables of a
    `GameDb`; `now` is the caller's `Date.now()` in milliseconds. */
module PetDb {
  import opened Wrappers
  import opened Schema

  /** The freshness window of the online table: five minutes. */
  const HeartbeatWindow: int := 5 * 60 * 1000

  /** getUserPet: the user's pet with the smallest id. */
  function UserPet(pets: map<int, Pet>, nextPetId: int, userId: int): (r: Option<Pet>)
    ensures r.Some? ==> r.value.userId == userId && r.value in pets.Values
    ensures r.None? ==> forall id :: 1 <= id < nextPetId && id in pets ==> pets[id].userId != userId
  {
    match UserPetId(pets, userId, 1, nextPetId)
    case Some(id) => Some(pets[id])
    case None => None
  }

  /** The row createUserPet inserts: the given owner and name, every other column at
      the value the insert or the column default gives it (no race column exists). */
  function NewPet(id: int, userId: int, name: string): Pet
  {
    Pet(id, userId, name, 1, 0, 100, 100, 100, 50, 50, 10, 5, 0, None, None)
  }

  /** createUserPet: inserts a fresh row and then returns getUserPet, which is the new
      row when the user had no pet and the user's older pet otherwise. */
  method CreateUserPet(db: GameDb, userId: int, name: string) returns (pet: Option<Pet>)
    requires db.Valid()
    modifies db`pets, db`nextPetId
    ensures db.Valid()
    ensures db.pets == old(db.pets)[old(db.nextPetId) := NewPet(old(db.nextPetId), userId, name)]
    ensures db.nextPetId == old(db.nextPetId) + 1
    ensures pet == UserPet(db.pets, db.nextPetId, userId)
    ensures old(UserPet(db.pets, db.nextPetId, userId)).None? ==> pet == Some(NewPet(old(db.nextPetId), userId, name))
    ensures old(UserPet(db.pets, db.nextPetId, userId)).Some? ==> pet == old(UserPet(db.pets, db.nextPetId, userId))
  {
    var id := db.nextPetId;
    UserPetIdAppend(db.pets, userId, 1, id, NewPet(id, userId, name));
    db.pets := db.pets[id := NewPet(id, userId, name)];
    db.nextPetId := id + 1;
    pet := UserPet(db.pets, db.nextPetId, userId);
  }

  /** The skill ids learned by a pet, in the order of the petSkills rows. */
  function LearnedIds(rows: seq<PetSkill>, petId: int): (ids: seq<int>)
    ensures forall id :: id in ids <==> PetSkill(petId, id) in rows
  {
    if rows == [] then []
    else
      assert forall r :: r in rows <==> r == rows[0] || r in rows[1..];
      (if rows[0].petId == petId then [rows[0].skillId] else []) + LearnedIds(rows[1..], petId)
  }

  /** getPetSkills: the catalog skills whose id the pet has learned, in catalog order;
      empty when the pet has learned nothing. */
  function PetSkills(catalog: seq<Skill>, rows: seq<PetSkill>, petId: int): (r: seq<Skill>)
    ensures forall s :: s in r <==> s in catalog && PetSkill(petId, s.id) in rows
    ensures (forall id :: PetSkill(petId, id) !in rows) ==> r == []
  {
    var ids := LearnedIds(rows, petId);
    if |ids| == 0 then []
    else
      assert PetSkill(petId, ids[0]) in rows;
      Filter(catalog, (s: Skill) => s.id in ids)
  }

  /** learnSkill: false, and no insert, when the pair is already present; otherwise one
      row is appended and the answer is true. */
  method LearnSkill(db: GameDb, petId: int, skillId: int) returns (learned: bool)
    modifies db`petSkills
    ensures learned <==> PetSkill(petId, skillId) !in old(db.petSkills)
    ensures db.petSkills == if learned then old(db.petSkills) + [PetSkill(petId, skillId)] else old(db.petSkills)
    ensures PetSkill(petId, skillId) in db.petSkills
  {
    if PetSkill(petId, skillId) in db.petSkills {
      learned := false;
    } else {
      db.petSkills := db.petSkills + [PetSkill(petId, skillId)];
      learned := true;
    }
  }

  /** Learning a skill twice leaves exactly one row for the pair. */
  lemma LearnTwiceKeepsOneRow(rows: seq<PetSkill>, petId: int, skillId: int)
    requires PetSkill(petId, skillId) !in rows
    ensures multiset(rows + [PetSkill(petId, skillId)])[PetSkill(petId, skillId)] == 1
  {
    assert multiset(rows)[PetSkill(petId, skillId)] == 0;
  }

  /** A learned skill shows up in getPetSkills as soon as it is in the catalog. */
  lemma LearnedSkillIsListed(catalog: seq<Skill>, rows: seq<PetSkill>, petId: int, s: Skill)
    requires s in catalog
    ensures s in PetSkills(catalog, rows + [PetSkill(petId, s.id)], petId)
  {
    assert PetSkill(petId, s.id) in rows + [PetSkill(petId, s.id)];
  }

  /** The all-zero statistics row createPlayerStats inserts. */
  function ZeroStats(userId: int): PlayerStats
  {
    PlayerStats(userId, 0, 0, 0, 0, 0, 0, 0, 0)
  }

  /** `Partial<PlayerStats>`: the columns an update sets. */
  datatype StatsPatch = StatsPatch(
    totalBattles: Option<int>,
    totalWins: Option<int>,
    currentWinStreak: Option<int>,
    maxWinStreak: Option<int>,
    totalGoldEarned: Option<int>,
    totalExpEarned: Option<int>,
    totalPotionsUsed: Option<int>,
    weaponsCollected: Option<int>)

  function Pick(o: Option<int>, current: int): int
  {
    if o.Some? then o.value else current
  }

  /** `update playerStats set <patch>`: the columns present in the patch take its
      values, the others keep theirs. */
  function Patched(row: PlayerStats, p: StatsPatch): PlayerStats
  {
    PlayerStats(row.userId,
      Pick(p.totalBattles, row.totalBattles),
      Pick(p.totalWins, row.totalWins),
      Pick(p.currentWinStreak, row.currentWinStreak),
      Pick(p.maxWinStreak, row.maxWinStreak),
      Pick(p.totalGoldEarned, row.totalGoldEarned),
      Pick(p.totalExpEarned, row.totalExpEarned),
      Pick(p.totalPotionsUsed, row.totalPotionsUsed),
      Pick(p.weaponsCollected, row.weaponsCollected))
  }

  /** createPlayerStats: inserts the all-zero row; the unique userId column makes a
      second insert for the same user fail. */
  method CreatePlayerStats(db: GameDb, userId: int) returns (r: Result<PlayerStats>)
    requires db.Valid()
    modifies db`playerStats
    ensures db.Valid()
    ensures userId in old(db.playerStats) ==> r.Err? && db.playerStats == old(db.playerStats)
    ensures userId !in old(db.playerStats) ==>
              r == Ok(ZeroStats(userId)) && db.playerStats == old(db.playerStats)[userId := ZeroStats(userId)]
  {
    if userId in db.playerStats {
      r := Err("Duplicate entry for key 'userId'");
    } else {
      db.playerStats := db.playerStats[userId := ZeroStats(userId)];
      r := Ok(ZeroStats(userId));
    }
  }

  /** updatePlayerStats: a user without a row gets the all-zero row and the supplied
      data is dropped; otherwise the patch is applied to the user's row. */
  method UpdatePlayerStats(db: GameDb, userId: int, patch: StatsPatch) returns (r: PlayerStats)
    requires db.Valid()
    modifies db`playerStats
    ensures db.Valid()
    ensures userId !in old(db.playerStats) ==>
              r == ZeroStats(userId) && db.playerStats == old(db.playerStats)[userId := ZeroStats(userId)]
    ensures userId in old(db.playerStats) ==>
              r == Patched(old(db.playerStats)[userId], patch) && db.playerStats == old(db.playerStats)[userId := r]
  {
    if userId !in db.playerStats {
      var created := CreatePlayerStats(db, userId);
      r := created.value;
    } else {
      r := Patched(db.playerStats[userId], patch);
      db.playerStats := db.playerStats[userId := r];
    }
  }

  /** A heartbeat strictly newer than five minutes before `now`. */
  predicate Fresh(row: OnlinePlayer, now: int)
  {
    row.lastHeartbeat > now - HeartbeatWindow
  }

  /** getOnlinePlayerCount: the number of rows with a fresh heartbeat. */
  function OnlinePlayerCount(rows: seq<OnlinePlayer>, now: int): (n: nat)
    ensures n <= |rows|
    ensures n == 0 <==> forall i :: 0 <= i < |rows| ==> !Fresh(rows[i], now)
    ensures n == |rows| <==> forall i :: 0 <= i < |rows| ==> Fresh(rows[i], now)
    ensures n == |Filter(rows, (x: OnlinePlayer) => Fresh(x, now))|
  {
    if rows == [] then 0
    else
      var rest := OnlinePlayerCount(rows[1..], now);
      assert forall i :: 1 <= i < |rows| ==> rows[i] == rows[1..][i - 1];
      (if Fresh(rows[0], now) then 1 else 0) + rest
  }

  /** The position of the user's row in the online table, if any. */
  function IndexOfUser(rows: seq<OnlinePlayer>, userId: int): (r: Option<nat>)
    ensures r.Some? ==> r.value < |rows| && rows[r.value].userId == userId
    ensures r.None? ==> forall i :: 0 <= i < |rows| ==> rows[i].userId != userId
  {
    if rows == [] then None
    else if rows[0].userId == userId then Some(0)
    else match IndexOfUser(rows[1..], userId)
         case Some(k) => Some(k + 1)
         case None => None
  }

  /** The upsert of updatePlayerOnlineStatus: the user's row is replaced in place, or
      appended when there is none. Other users' rows are untouched and userId stays
      unique. */
  function Upserted(rows: seq<OnlinePlayer>, row: OnlinePlayer): (r: seq<OnlinePlayer>)
    requires UniqueUsers(rows)
    ensures UniqueUsers(r)
    ensures row in r
    ensures forall x: OnlinePlayer :: x.userId != row.userId ==> (x in r <==> x in rows)
    ensures |r| == |rows| + (if IndexOfUser(rows, row.userId).Some? then 0 else 1)
    ensures IndexOfUser(rows, row.userId).Some? ==> r == rows[IndexOfUser(rows, row.userId).value := row]
    ensures IndexOfUser(rows, row.userId).None? ==> r == rows + [row]
  {
    match IndexOfUser(rows, row.userId)
    case Some(i) =>
      var r := rows[i := row];
      forall x: OnlinePlayer | x.userId != row.userId
        ensures x in r <==> x in rows
      {
        if x in rows {
          var j :| 0 <= j < |rows| && rows[j] == x;
          assert r[j] == x;
        }
        if x in r {
          var j :| 0 <= j < |r| && r[j] == x;
          assert rows[j] == x;
        }
      }
      assert r[i] == row;
      r
    case None => rows + [row]
  }

  /** updatePlayerOnlineStatus: upserts (userId, petId, level, status) with a fresh
      heartbeat (the column default on insert) and returns the user's row. */
  method UpdatePlayerOnlineStatus(db: GameDb, userId: int, petId: int, level: int, status: string, now: int)
    returns (row: OnlinePlayer)
    requires db.Valid()
    modifies db`onlinePlayers
    ensures db.Valid()
    ensures row == OnlinePlayer(userId, petId, level, status, now)
    ensures db.onlinePlayers == Upserted(old(db.onlinePlayers), row)
  {
    row := OnlinePlayer(userId, petId, level, status, now);
    db.onlinePlayers := Upserted(db.onlinePlayers, row);
  }

  /** The rows getRandomOpponent keeps: fresh, someone else, and idle. */
  predicate IsCandidate(row: OnlinePlayer, userId: int, now: int)
  {
    Fresh(row, now) && row.userId != userId && row.status == "idle"
  }

  function LevelGap(row: OnlinePlayer, level: int): nat
  {
    Abs(row.level - level)
  }

  /** The head of the stable sort by |level - currentLevel|: the first row of least gap. */
  function Closest(rows: seq<OnlinePlayer>, level: int): (r: OnlinePlayer)
    requires |rows| > 0
    ensures r in rows
    ensures forall x :: x in rows ==> LevelGap(r, level) <= LevelGap(x, level)
    ensures exists i :: 0 <= i < |rows| && rows[i] == r && forall j :: 0 <= j < i ==> LevelGap(rows[j], level) > LevelGap(r, level)
  {
    if |rows| == 1 then
      assert rows[0] == rows[0];
      rows[0]
    else
      var rest := Closest(rows[1..], level);
      assert forall x :: x in rows ==> x == rows[0] || x in rows[1..];
      if LevelGap(rows[0], level) <= LevelGap(rest, level) then
        rows[0]
      else
        var k :| 0 <= k < |rows[1..]| && rows[1..][k] == rest
                 && forall j :: 0 <= j < k ==> LevelGap(rows[1..][j], level) > LevelGap(rest, level);
        assert rows[k + 1] == rest;
        assert forall j :: 1 <= j < k + 1 ==> rows[j] == rows[1..][j - 1];
        rest
  }

  /** getRandomOpponent: null without candidates, otherwise the first candidate (in
      table order) whose level is closest to currentLevel. */
  function RandomOpponent(rows: seq<OnlinePlayer>, userId: int, currentLevel: int, now: int): (r: Option<OnlinePlayer>)
    ensures r.None? <==> forall x :: x in rows ==> !IsCandidate(x, userId, now)
    ensures r.Some? ==> r.value in rows && IsCandidate(r.value, userId, now)
    ensures r.Some? ==> forall x :: x in rows && IsCandidate(x, userId, now) ==>
                          LevelGap(r.value, currentLevel) <= LevelGap(x, currentLevel)
  {
    var candidates := Filter(rows, (x: OnlinePlayer) => IsCandidate(x, userId, now));
    if |candidates| == 0 then None
    else Some(Closest(candidates, currentLevel))
  }
}
