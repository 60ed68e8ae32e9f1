/** The realtime protocol's messages and payloads (shared/websocket.ts) and the records
    the realtime server keeps (server/websocket.ts). A socket is an opaque connection
    number; a match id is a number handed out by the server. */
module WsProtocol {
  import opened Wrappers

  type ConnId = int
  type MatchId = int

  /** The message types of the protocol. */
  datatype MessageType =
    | PLAYER_JOIN | PLAYER_LEAVE | SEARCH_MATCH | MATCH_FOUND | BATTLE_START
    | BATTLE_ACTION | BATTLE_END | ONLINE_PLAYERS | ERROR | HEARTBEAT

  /** The type tag as it travels on the wire. */
  function TypeName(t: MessageType): string
  {
    match t
    case PLAYER_JOIN => "PLAYER_JOIN"
    case PLAYER_LEAVE => "PLAYER_LEAVE"
    case SEARCH_MATCH => "SEARCH_MATCH"
    case MATCH_FOUND => "MATCH_FOUND"
    case BATTLE_START => "BATTLE_START"
    case BATTLE_ACTION => "BATTLE_ACTION"
    case BATTLE_END => "BATTLE_END"
    case ONLINE_PLAYERS => "ONLINE_PLAYERS"
    case ERROR => "ERROR"
    case HEARTBEAT => "HEARTBEAT"
  }

  datatype PlayerJoinPayload = PlayerJoinPayload(userId: int, petId: int, petName: string, level: int, hp: int, maxHp: int)

  datatype SearchMatchPayload = SearchMatchPayload(userId: int, petId: int, level: int)

  datatype ActionKind = ATTACK | SKILL | DEFEND | HEAL

  datatype BattleActionPayload = BattleActionPayload(
    matchId: MatchId,
    actorId: int,
    actionType: ActionKind,
    skillId: Option<int>,
    damage: Option<int>,
    isCritical: Option<bool>,
    isDodge: Option<bool>)

  /** A pet as the opponent or a participant is shown in MATCH_FOUND and BATTLE_START. */
  datatype PetCard = PetCard(userId: int, petId: int, petName: string, level: int, hp: int, maxHp: int)

  datatype BattleLogEntry = BattleLogEntry(
    round: int, actorId: int, action: ActionKind, damage: int, isCritical: bool, isDodge: bool, remainingHp: int)

  datatype BattleEndPayload = BattleEndPayload(
    matchId: MatchId, winnerId: int, loserId: int, goldEarned: int, expEarned: int, battleLog: seq<BattleLogEntry>)

  datatype Status = Idle | Searching | Battling

  datatype PlayerSummary = PlayerSummary(userId: int, petName: string, level: int, status: Status)

  datatype OnlinePlayersPayload = OnlinePlayersPayload(count: int, players: seq<PlayerSummary>)

  /** A message a client sends, after JSON parsing: the four handled types with their
      payloads, any other type tag, or text that failed to parse. */
  datatype Inbound =
    | Join(join: PlayerJoinPayload)
    | Search(search: SearchMatchPayload)
    | Action(action: BattleActionPayload)
    | Heartbeat
    | Unhandled(typeName: string)
    | Malformed

  /** A message the server sends. */
  datatype Outbound =
    | MatchFound(matchId: MatchId, opponent: PetCard)
    | BattleStart(startId: MatchId, player1: PetCard, player2: PetCard)
    | ActionRelay(relayed: BattleActionPayload)
    | BattleEnd(end: BattleEndPayload)
    | OnlinePlayers(online: OnlinePlayersPayload)
    | Error(code: string, message: string)
    | HeartbeatReply(timestamp: int)

  /** The type tag each outbound message carries. */
  function OutboundType(m: Outbound): MessageType
  {
    match m
    case MatchFound(_, _) => MATCH_FOUND
    case BattleStart(_, _, _) => BATTLE_START
    case ActionRelay(_) => BATTLE_ACTION
    case BattleEnd(_) => BATTLE_END
    case OnlinePlayers(_) => ONLINE_PLAYERS
    case Error(_, _) => ERROR
    case HeartbeatReply(_) => HEARTBEAT
  }

  /** One `sendMessage` call: the socket and the message. */
  datatype Sent = Sent(conn: ConnId, msg: Outbound)

  /** A registered player (ClientConnection). */
  datatype Client = Client(
    ws: ConnId, userId: int, petId: int, petName: string, level: int, hp: int, maxHp: int,
    status: Status, matchId: Option<MatchId>)

  /** A live realtime battle (BattleSession). */
  datatype Session = Session(
    matchId: MatchId, player1Id: int, player2Id: int, player1Hp: int, player2Hp: int,
    currentTurn: int, battleLog: seq<BattleLogEntry>)

  function Card(c: Client): PetCard
  {
    PetCard(c.userId, c.petId, c.petName, c.level, c.hp, c.maxHp)
  }

  const GoldReward: int := 100
  const ExpReward: int := 50
}
