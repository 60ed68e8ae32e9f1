# qpet-battle in Dafny

A Dafny model of the game logic of qpet-battle, a pet battle game with a TypeScript
server and a Vue client. The model covers:

- the realtime matchmaking and battle server (`WebSocketManager`);
- the turn-based battle engine and its router;
- the race, skill, evolution and level-up arithmetic;
- the pet, statistics, online-player and friendship tables;
- the two client stores that carry game rules: the shop/player store and the
  achievements/leaderboard store.

Code that changes state in place is modelled as imperative Dafny.

- A class holds the same fields as the source object.
- Each method is proved to leave exactly the state that a pure function of the old
  state describes.
- The properties the source promises are proved as lemmas about those functions.

The database tables become in-memory fields of one class, `Schema.GameDb`. Each database
operation is a method that modifies only the tables it writes.

| module | file | models |
|---|---|---|
| `Wrappers` | wrappers.dfy | Option/Result, Min/Max, decimal printing of numbers, a filter |
| `WsProtocol` | ws_protocol.dfy | message types and payloads of shared/websocket.ts |
| `WsServer` | ws_server.dfy | the realtime server's state as a value and every handler as a function |
| `WsManager` | ws_manager.dfy | `WebSocketManager` as a class, each handler proved against `WsServer` |
| `TurnBattle` | turn_battle.dfy | `BattleState` and the skill, defend, damage and end-of-round steps; the AI skill filter |
| `TurnBattleRouter` | turn_battle_router.dfy | battle ids, the `playerAction` flow, `activeBattles`, end and surrender |
| `RaceSystem` | race_system.dfy | race configuration, stat formulas, evolution stages, the race skill table |
| `RaceSkills` | race_skills.dfy | the three race skill records and the evolution filter |
| `Schema` | schema.dfy | the tables of drizzle/schema.ts and their well-formedness |
| `PetDb` | pet_db.dfy | pet creation, skill learning, statistics rows, online table, opponent choice |
| `PetRouter` | pet_router.dfy | `getPet`, `startMatching` and the statistics update of `endBattle` |
| `EvolutionDb` | evolution_db.dfy | stage counting, evolution and the level-up loop |
| `FriendDb` | friend_db.dfy | friendship rows and battle invites |
| `PetCustomization` | pet_customization.dfy | renaming, image upload checks, MP arithmetic |
| `GameStore` | game_store.dfy | the client's player, shop, potions and level-up |
| `Achievements` | achievements.dfy | achievement unlocking, battle statistics, the leaderboard |

How the realtime server is modelled:

- `clients` is a map. Its iteration order (first registration) is kept as a separate
  sequence `order`.
- The match queue is a sequence.
- Match ids come from a counter, `nextMatch`, so battles iterate in ascending id order.
  This is the insertion order the source's `Map` iterates in.
- Every `sendMessage` appends a `Sent(connection, message)` entry to `outbox`.
- `sockets` lists the open connections that `broadcastOnlineCount` visits.

How the turn-based engine is modelled: the skill catalogue, the damage jitter and the
AI's coin flip and pick become parameters.

Where the description of the realtime engine and the code differ, the model follows the
code:

- The queue is never de-duplicated. A player who searches twice can be paired with
  themself (`WsServer.SearchTwicePairsWithSelf`).
- A popped pair with a missing client is dropped whole. The present partner is not
  retried (`WsServer.SearchDropsAbsentWaiter`).
- A battle starts at turn 0, not 1.
- Declared damage is not clamped, except that hp never drops below 0.
- Any actor that is not player 1 damages player 1. This includes a user who is not in
  the battle at all.
- Actions are not checked against the sender's status or the sender's session.
- A rejoining player's record is replaced without closing the old connection.
- `PLAYER_LEAVE` is not handled and earns an `UNKNOWN_TYPE` error
  (`WsServer.UnhandledTypeOnlyErrors`).

## Model

| member | source | states |
|---|---|---|
| `WsServer.Broadcast` | server/websocket.ts:387-406 | broadcastOnlineCount sends one ONLINE_PLAYERS message to every open socket, in socket order, and changes nothing else |
| `WsServer.OnlineCountIsClientCount` | server/websocket.ts:387-396 | in a well-formed server the broadcast count and the length of the player list both equal the number of registered clients |
| `WsServer.JoinRegistersIdle` | server/websocket.ts:117-134 | PLAYER_JOIN stores the player as idle with no match, on the joining connection; it replaces an earlier record for the same id and leaves other clients, the queue and the battles alone; the server stays well formed |
| `WsServer.Paired` | server/websocket.ts:210-258 | pairing two present clients consumes exactly one match number and keeps the queue, the registration order, the client ids and the sockets |
| `WsServer.PairedStartsBattle` | server/websocket.ts:210-258 | both players become battling under the next match number and no other client changes; the battle stored under that number, which no battle held before, has the two join-time HPs, turn 0 and an empty log; the outbox gains MATCH_FOUND to player 1 and player 2, each naming the other, then BATTLE_START to both |
| `WsServer.PairFront` | server/websocket.ts:201-208 | one turn of the pairing loop removes exactly the two front queue entries, whether or not both clients exist |
| `WsServer.PairAll` | server/websocket.ts:200-300 | the pairing loop leaves the queue's last `n mod 2` entries, so fewer than two remain; match numbers only grow; clients and sockets keep their ids |
| `WsServer.PairAllKeepsConsistent` | server/websocket.ts:200-300 | from a consistent state, pairing everything yields a valid server: the queue is shorter than two, the registration order is distinct and lists exactly the registered ids, each client is stored under its own id, and each battle under its own number, below the next match number |
| `WsServer.Search` | server/websocket.ts:184-195 | SEARCH_MATCH from an unregistered user changes nothing; otherwise the queue ends with fewer than two entries |
| `WsServer.SearchAloneWaits` | server/websocket.ts:184-195 | on an empty queue a registered searcher becomes searching and waits alone at the queue's tail; battles, match number and outbox are unchanged |
| `WsServer.SearchPairsWithWaiting` | server/websocket.ts:184-228 | with one registered id waiting, the searcher is appended behind it and the two are paired at once: both battling under the next match number, the waiting id as player 1, a new battle with their HPs, four messages, the queue empty |
| `WsServer.SearchDropsAbsentWaiter` | server/websocket.ts:184-208 | with one waiting id that is no longer registered, the pair is dropped whole: the queue empties, the searcher stays searching, and no battle or message is made |
| `WsServer.SearchTwicePairsWithSelf` | server/websocket.ts:184-208 | a player already queued who searches again is paired with themself under the next match number, and the queue empties |
| `WsServer.Released` | server/websocket.ts:371-378 | releasing a present player makes it idle and sends it exactly one BATTLE_END; for an absent player nothing changes |
| `WsServer.EndPayloadNamesBothPlayers` | server/websocket.ts:355-369 | the end payload names the two players as winner and loser, the winner being player 1 exactly when player 1 still has hp; rewards are 100 gold and 50 exp and the log is the battle's |
| `WsServer.EndSession` | server/websocket.ts:355-382 | endBattle deletes exactly that battle and keeps the client ids, queue, order, sockets and match counter |
| `WsServer.EndSessionReleasesBoth` | server/websocket.ts:355-382 | each present participant becomes idle and receives the BATTLE_END payload; other clients are unchanged; earlier outbox entries are kept |
| `WsServer.Hit` | server/websocket.ts:309-320 | only the target's hp changes, to max(0, hp − damage); the target is player 2 exactly when the actor is player 1 |
| `WsServer.Logged` | server/websocket.ts:309-331 | an action appends one log entry, whose round is the current turn and whose remaining hp is the target's new hp |
| `WsServer.Act` | server/websocket.ts:305-307 | BATTLE_ACTION on an unknown match changes nothing |
| `WsServer.ActionHitsTarget` | server/websocket.ts:305-350 | an action that leaves both sides alive changes no client, queue entry or other battle; in that battle only the target's hp, one log entry and the turn counter, which grows by 1, change |
| `WsServer.ActionEndsBattle` | server/websocket.ts:305-382 | an action that brings a side to 0 hp deletes the battle, returns both present players to idle and sends each a BATTLE_END naming the side with hp left as winner with 100 gold and 50 exp |
| `WsServer.FindByConn` | server/websocket.ts:139-148 | the disconnecting user is a registered client on that socket, and none is found exactly when no registered client uses the socket |
| `WsServer.Without` | server/websocket.ts:150-153 | the queue filter removes every occurrence of the id and keeps all other entries |
| `WsServer.SettleOne` | server/websocket.ts:156-170 | a battle involving the leaver is deleted and nothing else in the tables changes; any other battle number leaves the state unchanged |
| `WsServer.SettleOneAwardsOpponent` | server/websocket.ts:156-170 | the leaver's opponent, if registered, becomes idle and receives one BATTLE_END naming it winner and the leaver loser with 100 gold and 50 exp |
| `WsServer.SettleFrom` | server/websocket.ts:155-172 | the battle loop keeps only battles, never alters a kept one, removes every battle involving the leaver and keeps every other |
| `WsServer.Disconnect` | server/websocket.ts:139-179 | a close on a socket no registered client uses changes nothing |
| `WsServer.Removed` | server/websocket.ts:142-153 | the disconnect removes the user from the clients, the order and the queue, and keeps the battles |
| `WsServer.RemovedConsistent` | server/websocket.ts:139-153 | removing a user keeps the server consistent |
| `WsServer.SettledConsistent` | server/websocket.ts:155-172 | settling a leaver's battles keeps the server consistent |
| `WsServer.DisconnectRemovesPlayer` | server/websocket.ts:139-179 | after a known socket closes, the user is in no table and no battle; uninvolved battles survive unchanged; the server stays well formed |
| `WsServer.UnhandledTypeOnlyErrors` | server/websocket.ts:95-111 | an unknown type, PLAYER_LEAVE included, sends one UNKNOWN_TYPE error to the sender and changes no state |
| `WsServer.HandleKeepsValid` | server/websocket.ts:95-111 | every inbound message keeps the server well formed |
| `WsServer.SocketEventsKeepValid` | server/websocket.ts:68-90 | opening and closing a connection keep the server well formed |
| `WsManager.WebSocketManager.constructor` | server/websocket.ts:53-63 | a new manager has no clients, queue, battles, sockets or messages |
| `WsManager.WebSocketManager.SendMessage` | server/websocket.ts:411-418 | sendMessage appends exactly one message for that connection |
| `WsManager.WebSocketManager.Connect` | server/websocket.ts:68-70 | a new connection is appended to the open sockets |
| `WsManager.WebSocketManager.Close` | server/websocket.ts:82-84 | a close removes the socket and then runs the disconnect handler |
| `WsManager.WebSocketManager.HandleMessage` | server/websocket.ts:72-111 | the message dispatch, including PARSE_ERROR for text that does not parse, leaves the state `WsServer.Handle` describes |
| `WsManager.WebSocketManager.HandlePlayerJoin` | server/websocket.ts:117-134 | handlePlayerJoin leaves the state `WsServer.Join` describes |
| `WsManager.WebSocketManager.HandleSearchMatch` | server/websocket.ts:184-195 | handleSearchMatch leaves the state `WsServer.Search` describes: the searcher queued at the tail and searching, or paired at once, as `WsServer.SearchAloneWaits`, `SearchPairsWithWaiting` and `SearchDropsAbsentWaiter` state |
| `WsManager.WebSocketManager.TryMatchPlayers` | server/websocket.ts:200-300 | the while loop that shifts two ids per turn leaves the state `WsServer.PairAll` describes |
| `WsManager.WebSocketManager.PairPlayers` | server/websocket.ts:210-296 | one pairing leaves the state `WsServer.Paired` describes: both players battling, the new battle and the four messages of `WsServer.PairedStartsBattle` |
| `WsManager.WebSocketManager.HandleBattleAction` | server/websocket.ts:305-350 | handleBattleAction leaves the state `WsServer.Act` describes |
| `WsManager.WebSocketManager.RelayAction` | server/websocket.ts:334-343 | the action is relayed to player 1 and then player 2, each only when registered |
| `WsManager.WebSocketManager.EndBattle` | server/websocket.ts:355-382 | endBattle leaves the state `WsServer.EndSession` describes |
| `WsManager.WebSocketManager.HandleDisconnect` | server/websocket.ts:139-179 | the search loop, the queue filter and the battle loop leave the state `WsServer.Disconnect` describes |
| `WsManager.WebSocketManager.SettleBattle` | server/websocket.ts:156-170 | one turn of the battle loop leaves the state `WsServer.SettleOne` describes |
| `WsManager.WebSocketManager.BroadcastOnlineCount` | server/websocket.ts:387-406 | the forEach over the sockets leaves the state `WsServer.Broadcast` describes |
| `WsManager.WebSocketManager.GetOnlineCount` | server/websocket.ts:452-454 | the count is the number of clients, which equals the length of the registration order and the broadcast count |
| `TurnBattle.InitializeBattle` | server/turnBasedBattle.ts:31-75 | fails with the not-found message exactly when either pet is missing; otherwise round 1, not finished, no winner, hp and mp from the pets, empty cooldown maps, one log line |
| `TurnBattle.SkillById` | server/turnBasedBattle.ts:116-126 | the skill found has the requested id and is in the catalogue; none is found exactly when no catalogue skill has that id |
| `TurnBattle.PetAvailableSkills` | server/turnBasedBattle.ts:77-105 | exactly the catalogue skills that the pet has a learned row for |
| `TurnBattle.SkillAttempt` | server/turnBasedBattle.ts:107-167 | succeeds exactly when the skill exists, mp covers its cost and its cooldown is not positive; a failure changes nothing and names its reason; a success subtracts the cost, sets the skill's cooldown, changes nothing else and deals exactly max(1, damage + jitter) |
| `TurnBattle.Defended` | server/turnBasedBattle.ts:169-194 | defending raises only the actor's mp: by exactly 15 when that stays within its maximum, and to exactly the maximum otherwise |
| `TurnBattle.Damaged` | server/turnBasedBattle.ts:233-246 | only the target's hp changes, to max(0, hp − damage) |
| `TurnBattle.Decremented` | server/turnBasedBattle.ts:198-203 | every recorded cooldown drops by exactly 1, with no floor, and no key is added or removed |
| `TurnBattle.RoundEnded` | server/turnBasedBattle.ts:196-231 | cooldowns drop by 1, each side regains 10 mp up to its maximum, the round grows by 1; winner 2 if the player is down, else winner 1 if the opponent is down, else nothing finishes |
| `TurnBattle.AICandidates` | server/turnBasedBattle.ts:256-260 | the AI's candidates are exactly the skills whose cost the opponent's mp covers and whose cooldown is 0 or absent |
| `TurnBattle.AIChoice` | server/turnBasedBattle.ts:248-272 | the AI defends exactly when the coin says so or there is no candidate; otherwise it picks a candidate |
| `TurnBattle.AIFilterStricterThanSkillCheck` | server/turnBasedBattle.ts:256-260 | a skill whose cooldown has run below 0 is never chosen by the AI, although executeSkill would accept it |
| `TurnBattle.RoundsEndedCountDown` | server/turnBasedBattle.ts:196-217 | after n rounds a recorded cooldown has dropped by exactly n and the round grown by n |
| `TurnBattle.AIReuseWindow` | server/turnBasedBattle.ts:248-260 | once the AI has a cooldown recorded for a skill, it can pick that skill again only in the one round where the cooldown is exactly 0 |
| `TurnBattle.BattleState.constructor` | server/turnBasedBattle.ts:9-29 | the battle state object holds exactly the given record |
| `TurnBattle.ExecuteSkill` | server/turnBasedBattle.ts:107-167 | executeSkill leaves the state and returns the result `SkillAttempt` describes |
| `TurnBattle.ExecuteDefend` | server/turnBasedBattle.ts:169-194 | executeDefend always succeeds with the defend message and leaves the state `Defended` describes |
| `TurnBattle.ApplyDamage` | server/turnBasedBattle.ts:233-246 | applyDamage leaves the state `Damaged` describes |
| `TurnBattle.DecrementCooldowns` | server/turnBasedBattle.ts:198-203 | the loop over the cooldown keys computes `Decremented` |
| `TurnBattle.EndRound` | server/turnBasedBattle.ts:196-231 | endRound leaves the state `RoundEnded` describes |
| `TurnBattleRouter.BattleIdSymmetric` | server/turnBasedBattleRouter.ts:23-25 | a battle id does not depend on the order of the two user ids |
| `TurnBattleRouter.BattleIdInjective` | server/turnBasedBattleRouter.ts:23-25 | equal battle ids (for non-negative ids) come from the same unordered pair of users and the same time |
| `TurnBattleRouter.InitBattleIdsCollide` | server/turnBasedBattleRouter.ts:47 | the ids initBattle creates coincide exactly when the user and the time coincide, so a second battle by one user in the same millisecond replaces the first |
| `TurnBattleRouter.PlayerMove` | server/turnBasedBattleRouter.ts:112-134 | the player's move touches only its own mp and cooldowns and the opponent's hp, which never rises; a refused skill changes nothing; an accepted skill pays its cost, sets its cooldown and hits the opponent for the skill's damage with the skill's message; defend always succeeds; a skill action without a usable id succeeds and changes nothing |
| `TurnBattleRouter.OpponentMove` | server/turnBasedBattleRouter.ts:150-175 | the AI's move always succeeds, touches only its own mp and cooldowns and the player's hp, which never rises; when the AI defends, or picks skill id 0, it restores its own mp; a chosen skill that succeeds hits the player for its damage with its message; one that fails makes the AI defend instead |
| `TurnBattleRouter.RefusedActionChangesNothing` | server/turnBasedBattleRouter.ts:105-127 | a refused action leaves the battle unchanged, and any action on a finished battle is refused with the battle-over message |
| `TurnBattleRouter.AcceptedActionOutcome` | server/turnBasedBattleRouter.ts:112-199 | an accepted action appends a "玩家: " line first; a finished battle keeps its round and names as winner a side whose opponent is down; otherwise the round grows by exactly 1 and both sides are alive; whenever the opponent survives the player's move, an "对手: " line follows, and an open battle gained exactly those two lines |
| `TurnBattleRouter.KnockoutEndsBeforeOpponent` | server/turnBasedBattleRouter.ts:112-148 | the player wins an action exactly when its own move brings the opponent's HP to 0 or below; then the AI does not move: the player's HP, the opponent's MP and cooldowns and the round are unchanged, and the victory line directly follows the player's line |
| `TurnBattleRouter.ActionNeverHeals` | server/turnBasedBattleRouter.ts:87-208 | no player action raises either side's hp or drops it below 0 |
| `TurnBattleRouter.Surrendered` | server/turnBasedBattleRouter.ts:299-301 | surrender finishes the battle with winner 2 and one log line, whatever the hp |
| `TurnBattleRouter.HpWritten` | server/turnBasedBattleRouter.ts:256-265 | endBattle writes the final hp into that pet's row only, and nothing for a missing pet |
| `TurnBattleRouter.EndMessage` | server/turnBasedBattleRouter.ts:270-275 | the end message is the victory message exactly when the winner is 1 |
| `TurnBattleRouter.PlayerStep` | server/turnBasedBattleRouter.ts:112-134 | the player's step leaves the state and reply `PlayerMove` describes |
| `TurnBattleRouter.OpponentStep` | server/turnBasedBattleRouter.ts:150-177 | the AI's step leaves the state and message `OpponentMove` describes |
| `TurnBattleRouter.RunTurn` | server/turnBasedBattleRouter.ts:105-206 | the whole action on a live state leaves the battle and reply `PlayerTurn` describes |
| `TurnBattleRouter.BattleRouter.constructor` | server/turnBasedBattleRouter.ts:18 | the router starts with no active battles |
| `TurnBattleRouter.BattleRouter.InitBattle` | server/turnBasedBattleRouter.ts:34-64 | a missing pet fails with no change; otherwise the initial battle is stored under the generated id, which is added and replaces any battle under that id, and other battles are kept |
| `TurnBattleRouter.BattleRouter.PlayerAction` | server/turnBasedBattleRouter.ts:87-208 | an unknown id fails; otherwise that battle and the reply are as `PlayerTurn` computes with the opponent pet's learned skills; other battles are unchanged |
| `TurnBattleRouter.BattleRouter.GetBattleState` | server/turnBasedBattleRouter.ts:210-228 | fails exactly for an unknown id and otherwise returns that battle's state |
| `TurnBattleRouter.BattleRouter.EndBattle` | server/turnBasedBattleRouter.ts:230-285 | an unknown id fails with no change; otherwise both pets' hp is written, the battle is removed and the winner and its message are returned |
| `TurnBattleRouter.BattleRouter.SurrenderBattle` | server/turnBasedBattleRouter.ts:287-315 | an unknown id fails; otherwise the battle is as `Surrendered` describes |
| `TurnBattleRouter.SurrenderAfterWinIsLoss` | server/turnBasedBattleRouter.ts:299-301 | surrendering a battle already won turns it into a loss |
| `RaceSystem.LevelOneIsBase` | shared/raceSystem.ts:53-64 | at level 1, maximum hp and mp are the race's base values |
| `RaceSystem.MaximaStrictlyIncrease` | shared/raceSystem.ts:8-64 | maximum hp and mp strictly increase with level for every race |
| `RaceSystem.RaceOrdering` | shared/raceSystem.ts:8-64 | at every level from 1, maximum hp orders beast > hybrid > human and maximum mp orders human > hybrid > beast |
| `RaceSystem.PetStatsAreFull` | shared/raceSystem.ts:115-124 | calculatePetStats gives full hp and mp, equal to the maxima |
| `RaceSystem.StrengthEveryTwoLevels` | shared/raceSystem.ts:69-72 | strength is the base plus one for every two levels above the first |
| `RaceSystem.EvolutionStageShape` | shared/raceSystem.ts:85-94 | the stage lies in 0..2, is monotone in level, is 0 exactly below 30 and 2 exactly from 50 |
| `RaceSystem.CanEvolveCharacterised` | shared/raceSystem.ts:99-102 | evolution outside 0..2 can never evolve; otherwise evolving is possible exactly when the level reaches that evolution's threshold |
| `RaceSystem.NextEvolutionLevelCharacterised` | shared/raceSystem.ts:107-110 | no next level from evolution 3 on; otherwise the threshold of the current evolution |
| `RaceSystem.SkillTableShape` | shared/raceSystem.ts:142-293 | four skills per race, twelve distinct ids, costs in (0, 100], damage in [0, 200], required evolution in 0..3 |
| `RaceSkills.GetRaceSkills` | shared/raceSkills.ts:149-160 | each race gets its own table |
| `RaceSkills.Unlocked` | shared/raceSkills.ts:165-179 | an entry is available exactly when it is in the table and its minimum evolution is reached |
| `RaceSkills.AvailableSkillsForEvolution` | shared/raceSkills.ts:165-179 | the for loop that fills the record computes `Unlocked` of the race's table |
| `RaceSkills.TablesHaveFourDistinctKeys` | shared/raceSkills.ts:23-144 | each race table has four entries with distinct keys |
| `RaceSkills.AvailableIffUnlocked` | shared/raceSkills.ts:169-176 | a key with its config is available exactly when the race table has it and its minimum evolution is reached |
| `RaceSkills.UnlockedMonotone` | shared/raceSkills.ts:173 | a higher evolution never loses a skill |
| `RaceSkills.UnlockCounts` | shared/raceSkills.ts:23-144 | at evolution 0 exactly two skills are available, and from evolution 2 on the whole table is |
| `Schema.GameDb.constructor` | drizzle/schema.ts:31-151 | a fresh database has empty tables and is well formed |
| `Schema.GameDb.RewritePet` | server/petDb.ts:42-50 | updatePet replaces exactly that pet's row and keeps the database well formed |
| `Schema.UserPetId` | server/petDb.ts:8-14 | the id found is the smallest id in range whose pet belongs to the user; none means no pet in range belongs to the user |
| `Schema.UserPetIdAppend` | server/petDb.ts:19-37 | appending a row at the next id keeps an earlier answer and otherwise finds the new row exactly when it belongs to the user |
| `PetDb.UserPet` | server/petDb.ts:8-14 | getUserPet returns a pet of that user, and none exactly when the user has no pet |
| `PetDb.CreateUserPet` | server/petDb.ts:19-37 | inserts the default row at the next id and returns the new pet, or the user's older pet when one exists |
| `PetDb.LearnedIds` | server/petDb.ts:139-146 | the learned ids are exactly those with a row for the pet |
| `PetDb.PetSkills` | server/petDb.ts:135-150 | exactly the catalogue skills the pet has learned, and none when it learned none |
| `PetDb.LearnSkill` | server/petDb.ts:155-179 | returns true and inserts one row exactly when the pair was not present; either way the pair is present afterwards |
| `PetDb.LearnTwiceKeepsOneRow` | server/petDb.ts:161-174 | after a successful learn the pair occurs exactly once |
| `PetDb.LearnedSkillIsListed` | server/petDb.ts:135-174 | a skill just learned is among the pet's skills |
| `PetDb.CreatePlayerStats` | server/petDb.ts:200-217 | an existing row fails with no change; otherwise an all-zero row is inserted and returned |
| `PetDb.UpdatePlayerStats` | server/petDb.ts:222-233 | a missing row is created all-zero and the supplied data is ignored; an existing row gets exactly the supplied fields |
| `PetDb.OnlinePlayerCount` | server/petDb.ts:238-248 | equals the length of the rows filtered to a heartbeat in the last five minutes: 0 exactly when none is fresh, all exactly when all are |
| `PetDb.IndexOfUser` | server/petDb.ts:257-261 | finds a row of that user, and none exactly when the user has no row |
| `PetDb.Upserted` | server/petDb.ts:253-287 | the upsert keeps one row per user and other users' rows; an existing row of the user is replaced at its own position, otherwise the row is appended at the end |
| `PetDb.UpdatePlayerOnlineStatus` | server/petDb.ts:253-287 | the online table becomes the upsert of the caller's row |
| `PetDb.Closest` | server/petDb.ts:310-316 | the chosen row has the smallest level gap, and it is the first such row |
| `PetDb.RandomOpponent` | server/petDb.ts:292-317 | none exactly when no fresh, idle, non-self row exists; otherwise such a row with the smallest level gap |
| `PetRouter.GetPet` | server/petRouter.ts:23-33 | returns the user's pet unchanged, or creates one with the default name |
| `PetRouter.StartMatching` | server/petRouter.ts:148-180 | the caller is marked searching; with no opponent it fails and stays searching; with one it is marked battling and the match id is built from both user ids |
| `PetRouter.MatchingTouchesOnlyCaller` | server/petRouter.ts:155-167 | the opponent found is an idle row of another user that was already present and is left as it was; only the caller becomes battling |
| `PetRouter.AfterBattle` | server/petRouter.ts:198-215 | one more battle and the gold and exp added; a win adds a win, extends the streak and keeps the best streak as the maximum; a loss resets the streak and keeps wins and best streak |
| `PetRouter.AfterBattleKeepsConsistent` | server/petRouter.ts:198-215 | wins never exceed battles and the streak never exceeds the best streak, before and after |
| `PetRouter.EndBattle` | server/petRouter.ts:181-221 | the caller becomes idle and its statistics, zero when missing, are updated as `AfterBattle` says |
| `EvolutionDb.StageCount` | server/evolutionDb.ts:9-22 | the stage is at most the number of thresholds |
| `EvolutionDb.StageCountSteps` | server/evolutionDb.ts:20-21 | the stage is 0, 1, 2 or 3 as the level reaches 10, 30 and 50 |
| `EvolutionDb.StageCountMonotone` | server/evolutionDb.ts:20-21 | the stage never drops as the level rises |
| `EvolutionDb.StageNotionsDiffer` | server/evolutionDb.ts:20-21 | the race-system stage is one less than this count (never below 0), so the two notions differ from level 10 on |
| `EvolutionDb.CanPetEvolve` | server/evolutionDb.ts:27-42 | an unknown pet is an error; otherwise evolving is possible exactly when the count exceeds the stored evolution |
| `EvolutionDb.EvolvePet` | server/evolutionDb.ts:47-96 | refuses without change when the pet is missing, cannot evolve, or has no race; otherwise stores the race stats and the new evolution |
| `EvolutionDb.GainLevels` | server/evolutionDb.ts:113-121 | the loop ends with less exp than maxExp and no lower level, losing no experience: exp + gain = new exp + gained levels · maxExp |
| `EvolutionDb.LevelUpPet` | server/evolutionDb.ts:101-169 | a missing pet or one with no race fails without change; otherwise the pet gets the new level, exp, race stats and evolution, and evolved is true exactly when the count rose; below maxExp the level stays and the gain is added, and from a non-negative total the level rises by total div maxExp and exp becomes total mod maxExp |
| `EvolutionDb.LevelUpNeverRegresses` | server/evolutionDb.ts:113-129 | a level-up never lowers the evolution count |
| `EvolutionDb.ExpRequiredStrictlyIncreases` | server/evolutionDb.ts:174-177 | the experience required grows by exactly 50 per level |
| `EvolutionDb.FirstAbove` | server/evolutionDb.ts:182-185 | find returns the first element above the level, and none exactly when no element is above it |
| `EvolutionDb.NextEvolutionLevel` | server/evolutionDb.ts:182-185 | the smallest threshold above the level, and none exactly when the level is 50 or more |
| `EvolutionDb.NewPetIsStarter` | server/petDb.ts:23-34 | a new pet has level 1, no exp, full hp of 100 and evolution 0, with the maxExp level 1 requires and an evolution both stage notions agree with |
| `FriendDb.AddFriendRows` | server/friendDb.ts:9-37 | fails exactly when any row links the two users, either way, whatever its status; otherwise appends one pending row |
| `FriendDb.AcceptPending` | server/friendDb.ts:46-56 | turns exactly the pending requests from the friend to the user to accepted |
| `FriendDb.AcceptFriendRows` | server/friendDb.ts:42-64 | acceptFriend always appends an accepted row from the user to the friend |
| `FriendDb.RejectFriendRows` | server/friendDb.ts:69-82 | deletes exactly the pending requests from the friend to the user |
| `FriendDb.RemoveFriendRows` | server/friendDb.ts:87-99 | deletes exactly the rows between the two users, both ways, whatever their status |
| `FriendDb.FriendIds` | server/friendDb.ts:104-129 | the friends listed are exactly those isFriend accepts |
| `FriendDb.PendingRequests` | server/friendDb.ts:134-160 | exactly the pending rows addressed to the user |
| `FriendDb.AcceptMakesFriends` | server/friendDb.ts:42-64 | after accepting, the user counts the friend as a friend; the reverse holds exactly when it held before or a pending request from the friend was accepted |
| `FriendDb.RemoveEndsFriendship` | server/friendDb.ts:87-99 | after removal neither user counts the other as a friend |
| `FriendDb.RejectKeepsFriendships` | server/friendDb.ts:69-82 | rejecting changes no friendship |
| `FriendDb.AddKeepsFriendships` | server/friendDb.ts:9-37 | a friend request changes no friendship until it is accepted |
| `FriendDb.AddFriend` | server/friendDb.ts:9-37 | addFriend fails without change or appends the row `AddFriendRows` gives |
| `FriendDb.AcceptFriend` | server/friendDb.ts:42-64 | the table becomes `AcceptFriendRows` |
| `FriendDb.RejectFriend` | server/friendDb.ts:69-82 | the table becomes `RejectFriendRows` |
| `FriendDb.RemoveFriend` | server/friendDb.ts:87-99 | the table becomes `RemoveFriendRows` |
| `FriendDb.SendFriendInvite` | server/friendDb.ts:165-181 | appends one pending invite without a match under a fresh id |
| `FriendDb.SetInvite` | server/friendDb.ts:190-193 | only invites with that id change, to the given status and match |
| `FriendDb.AcceptFriendInvite` | server/friendDb.ts:186-194 | the invite becomes accepted with its match id |
| `FriendDb.DeclineFriendInvite` | server/friendDb.ts:199-207 | the invite becomes declined |
| `FriendDb.DeclineInvite` | server/friendDb.ts:203-206 | only invites with that id change, to declined, their match kept |
| `FriendDb.PendingInvites` | server/friendDb.ts:212-240 | exactly the pending invites to the user whose expiry is after now |
| `FriendDb.AnsweredInviteLeavesPending` | server/friendDb.ts:186-240 | an accepted or declined invite is no longer pending |
| `PetCustomization.TrimStart` | server/petCustomization.ts:15 | the result drops only leading whitespace and starts with a non-space |
| `PetCustomization.TrimEnd` | server/petCustomization.ts:15 | the result drops only trailing whitespace and ends with a non-space |
| `PetCustomization.TrimIsSlice` | server/petCustomization.ts:15 | trim returns a slice with only whitespace cut on either side, and neither end of it is a space |
| `PetCustomization.TrimEmptyIffAllSpace` | server/petCustomization.ts:15 | the trimmed name is empty exactly when the name is all whitespace |
| `PetCustomization.Utf16Length` | server/petCustomization.ts:19 | JavaScript's `.length`: between the character count and twice it, equal to the count exactly when no character is astral, twice it exactly when all are |
| `PetCustomization.ValidateName` | server/petCustomization.ts:15-22 | a name is accepted exactly when it is not all whitespace and at most 64 UTF-16 code units before trimming; the errors are the empty and too-long messages; the stored name is the trimmed one |
| `PetCustomization.FortyEmojiTooLong` | server/petCustomization.ts:19-21 | a name of forty emoji, eighty UTF-16 code units, is refused as too long |
| `PetCustomization.RenamePet` | server/petCustomization.ts:11-29 | an invalid name fails with no change; a valid one stores the trimmed name on that pet, if it exists, and returns the success message |
| `PetCustomization.ImageExtension` | server/petCustomization.ts:44-57 | only image/jpeg and image/png are accepted, with extension jpg and png respectively |
| `PetCustomization.StorageKeyShape` | server/petCustomization.ts:57 | the storage key starts with `pets/` and ends with the dot and the extension |
| `PetCustomization.UploadPetImage` | server/petCustomization.ts:37-75 | another MIME type fails with no change; otherwise the key and stored URL are returned and the pet, if it exists, gets the URL |
| `PetCustomization.ImageKeyExtension` | server/petCustomization.ts:44-57 | the key ends in `.jpg` exactly for JPEG and in `.png` exactly for PNG |
| `PetCustomization.PetInfo` | server/petCustomization.ts:80-95 | returns the pet exactly when it exists and otherwise fails with the not-found message |
| `PetCustomization.IncreasePetMp` | server/petCustomization.ts:100-113 | maximum mp grows by the increase and mp is refilled to it; a missing pet fails with no change |
| `PetCustomization.RestoredMpBounds` | server/petCustomization.ts:122-127 | restored mp never exceeds the maximum, is mp + restore below it, and never drops when mp was within the maximum |
| `PetCustomization.ConsumedMp` | server/petCustomization.ts:142-150 | consuming fails exactly when mp is below the cost; otherwise mp drops by exactly the cost and stays non-negative |
| `PetCustomization.ConsumeThenRestore` | server/petCustomization.ts:118-154 | restoring what was consumed gives back the original mp |
| `PetCustomization.RestorePetMp` | server/petCustomization.ts:118-131 | that pet's mp becomes the restored value; a missing pet fails with no change |
| `PetCustomization.ConsumePetMp` | server/petCustomization.ts:136-154 | a missing pet or too little mp fails with no change; otherwise that pet's mp drops by the cost |
| `GameStore.FindWeapon` | client/src/stores/game.ts:180 | the weapon found has that id and is in the list; none exactly when no weapon has it |
| `GameStore.FindPotion` | client/src/stores/game.ts:210 | the potion found has that id and is in the list; none exactly when no potion has it |
| `GameStore.EquipOnlyOwned` | client/src/stores/game.ts:145-151 | only the weapon slot can change, and only to an owned weapon with that id; an unowned id changes nothing |
| `GameStore.LevelUpEffects` | client/src/stores/game.ts:161-169 | one more level, exp reduced by the old maxExp, maxExp becomes floor(1.2 · maxExp), maxHp + 20 with hp refilled, strength + 2, agility + 1 |
| `GameStore.GainExpLevelsOnce` | client/src/stores/game.ts:153-159 | gaining exp levels up at most once, exactly when the total reaches maxExp |
| `GameStore.GainExpLeavesSurplus` | client/src/stores/game.ts:153-169 | 300 exp from the starting player leaves level 2 with 200 exp against a maxExp of 120 |
| `GameStore.BuyWeaponOutcome` | client/src/stores/game.ts:176-192 | succeeds exactly with enough gold, a shop weapon and one not owned; a failure changes nothing; a success lowers gold by the price, keeps it non-negative, appends the weapon and keeps inventory ids unique |
| `GameStore.ShopWeaponIds` | client/src/stores/game.ts:48-81 | the shop sells exactly w1 to w4 |
| `GameStore.BuyPotionOutcome` | client/src/stores/game.ts:194-203 | succeeds exactly with enough gold, for any id; a success lowers gold by the price and adds one of that potion, and nothing else changes |
| `GameStore.UsePotionOutcome` | client/src/stores/game.ts:205-218 | succeeds exactly when one is held and the potion is known; a success uses one and sets hp to min(hp + heal, maxHp), so hp does not drop when it was within the maximum |
| `GameStore.PotionLowersOverfullHp` | client/src/stores/game.ts:213-214 | with hp above the maximum a potion lowers hp to the maximum |
| `GameStore.DefaultPlayerValid` | client/src/stores/game.ts:115-134 | the starting player is well formed |
| `GameStore.OperationsKeepValid` | client/src/stores/game.ts:145-218 | every store operation keeps the player well formed: gold non-negative, hp within the maximum, weapon ids unique, potion counts non-negative (gold only for a non-negative gain) |
| `GameStore.Store.constructor` | client/src/stores/game.ts:115-134 | the store starts with the default player |
| `GameStore.Store.EquipWeapon` | client/src/stores/game.ts:145-151 | the search over the inventory leaves the player `Equipped` describes |
| `GameStore.Store.GainExp` | client/src/stores/game.ts:153-159 | the player becomes `ExpGained` |
| `GameStore.Store.LevelUp` | client/src/stores/game.ts:161-169 | the player becomes `LeveledUp` |
| `GameStore.Store.GainGold` | client/src/stores/game.ts:171-174 | the player becomes `GoldGained` |
| `GameStore.Store.BuyWeapon` | client/src/stores/game.ts:176-192 | the player and the answer are as `WeaponBought` says |
| `GameStore.Store.BuyPotion` | client/src/stores/game.ts:194-203 | the player and the answer are as `PotionBought` says |
| `GameStore.Store.UsePotion` | client/src/stores/game.ts:205-218 | the player and the answer are as `PotionUsed` says |
| `Achievements.Checked` | client/src/stores/achievements.ts:148-158 | checking keeps the number of achievements |
| `Achievements.CheckUnlocksExactly` | client/src/stores/achievements.ts:148-158 | an achievement is unlocked afterwards exactly when it was or its condition holds; unlocked ones never change; newly unlocked ones get the time |
| `Achievements.CheckIdempotent` | client/src/stores/achievements.ts:148-158 | checking again with the same statistics changes nothing |
| `Achievements.MetMonotone` | client/src/stores/achievements.ts:161-180 | a condition met stays met when no statistic decreases |
| `Achievements.VictoryEffects` | client/src/stores/achievements.ts:183-196 | a victory adds one battle, one win and one to the streak, adds gold and exp, keeps the best streak at least the streak, and leaves potions and weapons |
| `Achievements.DefeatEffects` | client/src/stores/achievements.ts:199-203 | a defeat adds one battle, resets the streak, and changes neither the achievements nor the leaderboard |
| `Achievements.DefeatSkipsCheck` | client/src/stores/achievements.ts:199-203 | the 50th battle recorded as a defeat meets the veteran condition but leaves it locked |
| `Achievements.RecordsKeepStatsConsistent` | client/src/stores/achievements.ts:183-217 | every record keeps wins within battles and the streak within the best streak |
| `Achievements.VictoryOnlyRaises` | client/src/stores/achievements.ts:183-210 | victories and potions never lower a statistic, so they never un-meet a condition |
| `Achievements.FirstBeaten` | client/src/stores/achievements.ts:242-250 | the insertion point is the first entry the player strictly beats on streak, then gold; none exactly when it beats no entry |
| `Achievements.Reranked` | client/src/stores/achievements.ts:257-259 | re-ranking keeps the length |
| `Achievements.BoardShape` | client/src/stores/achievements.ts:252-264 | afterwards at most 10 entries, ranked 1..n in list order |
| `Achievements.PlacementOrder` | client/src/stores/achievements.ts:242-254 | the player goes before the first entry it beats and after all the others, keeping their order; with none beaten it is appended only when fewer than 10 entries exist |
| `Achievements.SortedStaysSorted` | client/src/stores/achievements.ts:242-264 | a board sorted by streak then gold stays sorted after the update |
| `Achievements.SeedBoardUnsorted` | client/src/stores/achievements.ts:126-132 | the initial board is not sorted, so an insertion can land above an entry with a higher streak |
| `Achievements.Store.constructor` | client/src/stores/achievements.ts:31-132 | the store starts with the default achievements, zero statistics and the initial board |
| `Achievements.Store.CheckAchievements` | client/src/stores/achievements.ts:148-158 | the forEach leaves the achievements `Checked` describes |
| `Achievements.Store.RecordVictory` | client/src/stores/achievements.ts:183-196 | the store becomes `VictoryRecorded` |
| `Achievements.Store.RecordDefeat` | client/src/stores/achievements.ts:199-203 | the store becomes `DefeatRecorded` |
| `Achievements.Store.RecordPotionUsed` | client/src/stores/achievements.ts:206-210 | the store becomes `PotionRecorded` |
| `Achievements.Store.RecordWeaponCollected` | client/src/stores/achievements.ts:213-217 | the store becomes `WeaponsRecorded` |
| `Achievements.Store.UpdateLeaderboard` | client/src/stores/achievements.ts:232-266 | the search, splice or push, re-rank loop and truncation leave the board `LeaderboardUpdated` describes |

## Left out

- Transport: the WebSocket server, JSON parsing and the error callback are not modelled. An inbound message arrives already classified, with unparsable text as `Malformed`. A send is an outbox entry.
- Exceptions in handlers: server/websocket.ts:73-79 also answers PARSE_ERROR when a handler throws on well-formed JSON. Example: a BATTLE_ACTION without a payload fails reading `payload.matchId` (server/websocket.ts:306). `WsServer.Handle` takes typed payloads, so it cannot express a missing or ill-typed payload, and this path is not modelled.
- Open sockets: `readyState` checks are not modelled. `sockets` holds exactly the open connections.
- Timers: BATTLE_START is sent right after MATCH_FOUND, not one second later. The 30-second ping (`startHeartbeat`, `stopHeartbeat`) is not modelled.
- Clocks and randomness: every outbound message's timestamp is left out. Match ids use a counter instead of `Date.now()` and `Math.random()`. Turn-based battles get `now`, the damage jitter and the AI's coin and pick as parameters.
- `WsManager.WebSocketManager.HandleDisconnect`: does not test `battles.size > 0`, because with no battles the battle loop does nothing either.
- `WsServer.ActionEndsBattle`: it states that a BATTLE_END with the winner and rewards reaches each participant, not where it sits in the outbox. `EndSessionReleasesBoth` places it in the new suffix.
- `TurnBattleRouter.AcceptedActionOutcome`: it states where the "对手: " line sits, not the text after the prefix. That text is fixed by `OpponentMove` and `RunTurn`.
- Database access: `getDb()` returning null, query errors and exceptions are not modelled. The tables are in-memory fields of `Schema.GameDb`. Joins are written as lookups into the skill catalogue.
- The pets table: drizzle/schema.ts has no `race` column, so `Pet.race` is an `Option`. `EvolutionDb.EvolvePet` and `LevelUpPet` fail on a pet without a race, where the source's call with an undefined race throws and is caught.
- `EvolutionDb.GainLevels`: requires maxExp > 0. With a non-positive maxExp the source's loop does not terminate. Stored rows keep maxExp positive.
- Column types: varchar length limits are not modelled. Of the timestamp columns only `lastHeartbeat` and `expiresAt` are kept, as milliseconds, because the logic compares them. An achievement's `unlockedAt` is the caller's time.
- `getAllSkills`, `getPlayerStats`, `initializeSkills`: a table read and a seeding script, with nothing to state beyond the table itself.
- `getFriends`: the join with users and pets is not modelled. `FriendDb.FriendIds` gives the ids the join starts from.
- `getPendingFriendRequests` and `getPendingInvites`: user and pet details are not modelled; the model keeps the rows.
- `isFriend`: modelled as the predicate `FriendDb.IsFriend`, used by the friendship lemmas.
- Image processing: sharp resizing and the S3 upload are not modelled. The stored URL is a parameter of `UploadPetImage`.
- Floating point: `calculateAgility` (`Math.floor((level - 1) * 0.3)`) is modelled as `(3 * (level - 1)) / 10` on integers, which ignores any rounding error of the float product. floor(1.2 · maxExp) in `levelUp` is `(6 * maxExp) / 5`. `achievementProgress` (a rounded percentage) and `unlockedAchievements` are views that are not modelled.
- Achievement conditions: each condition is modelled as "statistic ≥ threshold", which is what each condition string says. The `eval` that interprets the strings is not modelled.
- Persistence: localStorage, `autoSave`, `saveData` and `loadData` are not modelled. The stores start from their defaults.
- The game store's accessors: `getShopWeapons`, `getShopPotions` and `getOwnedWeaponIds` are not modelled. Weapon and potion descriptions and icons, and the player's skill list, are not modelled either. A weapon keeps its id, name, damage and whether it is ranged.
- `Achievements.Store.UpdateLeaderboard`: like the source, it inserts a new entry on every call, so one player can hold several entries.
- Thin routers and the client pages: tRPC wrappers, React/Vue pages, the client WebSocket hook and the lobby tables are not modelled.
