/** The database tables the server modules read and write (drizzle/schema.ts),
    held in memory. Timestamps other than the two the logic compares
    (onlinePlayers.lastHeartbeat, friendInvites.expiresAt) are not modelled.
    Times are milliseconds since the epoch. */
module Schema {
  import opened Wrappers
  import opened RaceSystem

  /** A row of `pets`. The schema declares no race column while the evolution code
      reads `pet.race`; `race` is None for every row that was inserted without one. */
  datatype Pet = Pet(
    id: int,
    userId: int,
    name: string,
    level: int,
    exp: int,
    maxExp: int,
    hp: int,
    maxHp: int,
    mp: int,
    maxMp: int,
    strength: int,
    agility: int,
    evolution: int,
    imageUrl: Option<string>,
    race: Option<Race>)

  /** A row of `skills`. */
  datatype Skill = Skill(
    id: int,
    name: string,
    damage: int,
    mpCost: int,
    cooldown: int,
    mpRestore: int,
    requiredLevel: int,
    requiredEvolution: int)

  /** A row of `petSkills`. */
  datatype PetSkill = PetSkill(petId: int, skillId: int)

  /** A row of `playerStats` (unique per userId). */
  datatype PlayerStats = PlayerStats(
    userId: int,
    totalBattles: int,
    totalWins: int,
    currentWinStreak: int,
    maxWinStreak: int,
    totalGoldEarned: int,
    totalExpEarned: int,
    totalPotionsUsed: int,
    weaponsCollected: int)

  /** A row of `onlinePlayers` (unique per userId). */
  datatype OnlinePlayer = OnlinePlayer(userId: int, petId: int, level: int, status: string, lastHeartbeat: int)

  datatype FriendshipStatus = FriendPending | FriendAccepted | FriendBlocked

  /** A row of `friendships`: a directed link from userId to friendId. */
  datatype Friendship = Friendship(userId: int, friendId: int, status: FriendshipStatus)

  datatype InviteStatus = InvitePending | InviteAccepted | InviteDeclined | InviteExpired

  /** A row of `friendInvites`. */
  datatype FriendInvite = FriendInvite(
    id: int,
    inviterId: int,
    inviteeId: int,
    status: InviteStatus,
    matchId: Option<string>,
    expiresAt: int)

  /** The database. Tables keyed by a primary or unique key are maps; tables whose
      scan order the code observes are sequences in insertion order. */
  class GameDb {
    var pets: map<int, Pet>
    var nextPetId: int
    var skills: seq<Skill>
    var petSkills: seq<PetSkill>
    var playerStats: map<int, PlayerStats>
    var onlinePlayers: seq<OnlinePlayer>
    var friendships: seq<Friendship>
    var friendInvites: seq<FriendInvite>
    var nextInviteId: int

    /** Primary keys agree with the row ids and lie below the auto-increment
        counter; the unique userId columns hold at most one row each; maxExp,
        which is 100 on insert and which no operation writes, stays positive. */
    ghost predicate Valid()
      reads this
    {
      && PetsValid(pets, nextPetId)
      && (forall u :: u in playerStats ==> playerStats[u].userId == u)
      && UniqueUsers(onlinePlayers)
      && nextInviteId >= 1
      && (forall i :: 0 <= i < |friendInvites| ==> 1 <= friendInvites[i].id < nextInviteId)
    }

    constructor ()
      ensures Valid()
      ensures pets == map[] && skills == [] && petSkills == [] && playerStats == map[]
      ensures onlinePlayers == [] && friendships == [] && friendInvites == []
    {
      pets := map[];
      nextPetId := 1;
      skills := [];
      petSkills := [];
      playerStats := map[];
      onlinePlayers := [];
      friendships := [];
      friendInvites := [];
      nextInviteId := 1;
    }

    /** `update pets set ... where id = <id>` for a stored pet: the row is replaced by
        one with the same id and maxExp. */
    method RewritePet(id: int, p: Pet)
      requires Valid() && id in pets && p.id == id && p.maxExp == pets[id].maxExp
      modifies this`pets
      ensures Valid()
      ensures pets == old(pets)[id := p]
    {
      pets := pets[id := p];
    }
  }

  /** Keys are the rows' ids, below the auto-increment counter, and maxExp is positive. */
  predicate PetsValid(pets: map<int, Pet>, nextPetId: int)
  {
    && nextPetId >= 1
    && (forall id :: id in pets ==> pets[id].id == id && 1 <= id < nextPetId && pets[id].maxExp >= 1)
  }

  predicate UniqueUsers(rows: seq<OnlinePlayer>)
  {
    forall i, j :: 0 <= i < j < |rows| ==> rows[i].userId != rows[j].userId
  }

  /** `select ... from pets where userId = u limit 1`, scanning primary keys upwards
      from `lo`: the key of the user's pet with the smallest id in [lo, hi). */
  function UserPetId(pets: map<int, Pet>, userId: int, lo: int, hi: int): (r: Option<int>)
    ensures r.Some? ==> lo <= r.value < hi && r.value in pets && pets[r.value].userId == userId
    ensures r.Some? ==> forall id :: lo <= id < r.value && id in pets ==> pets[id].userId != userId
    ensures r.None? ==> forall id :: lo <= id < hi && id in pets ==> pets[id].userId != userId
    decreases hi - lo
  {
    if lo >= hi then None
    else if lo in pets && pets[lo].userId == userId then Some(lo)
    else UserPetId(pets, userId, lo + 1, hi)
  }

  /** Inserting a row under key `hi` extends the scan by one key: the first match below
      `hi` is kept, and otherwise the new row is found when it belongs to the user. */
  lemma {:induction false} UserPetIdAppend(pets: map<int, Pet>, userId: int, lo: int, hi: int, p: Pet)
    requires lo <= hi
    ensures UserPetId(pets[hi := p], userId, lo, hi + 1)
            == if UserPetId(pets, userId, lo, hi).Some? then UserPetId(pets, userId, lo, hi)
               else if p.userId == userId then Some(hi) else None
    decreases hi - lo
  {
    if lo < hi {
      UserPetIdAppend(pets, userId, lo + 1, hi, p);
    }
  }
}
