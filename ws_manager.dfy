/** The realtime server as the object it is (WebSocketManager in server/websocket.ts):
    its tables are fields that the handlers update in place, and each handler is proved
    to leave exactly the state that the matching function of WsServer describes. */
module WsManager {
  import opened Wrappers
  import opened WsProtocol
  import opened WsServer

  class WebSocketManager {
    var clients: map<int, Client>
    /** The order in which the clients Map iterates: ids in first-registration order. */
    var order: seq<int>
    var matchQueue: seq<int>
    var battles: map<MatchId, Session>
    /** The next match number to hand out. */
    var nextMatch: nat
    /** The open sockets (`wss.clients`), in the order they are visited. */
    var sockets: seq<ConnId>
    /** Every message sent so far. */
    var outbox: seq<Sent>

    function View(): Server
      reads this
    {
      Server(clients, order, matchQueue, battles, nextMatch, sockets, outbox)
    }

    constructor()
      ensures View() == Empty
    {
      clients := map[];
      order := [];
      matchQueue := [];
      battles := map[];
      nextMatch := 0;
      sockets := [];
      outbox := [];
    }

    /** sendMessage */
    method SendMessage(conn: ConnId, msg: Outbound)
      modifies this`outbox
      ensures outbox == old(outbox) + [Sent(conn, msg)]
    {
      outbox := outbox + [Sent(conn, msg)];
    }

    /** A new connection opens. */
    method Connect(conn: ConnId)
      modifies this`sockets
      ensures View() == WsServer.Connect(old(View()), conn)
    {
      sockets := sockets + [conn];
    }

    /** A connection closes: it leaves the open sockets and handleDisconnect runs. */
    method Close(conn: ConnId)
      modifies this
      ensures View() == WsServer.Close(old(View()), conn)
    {
      sockets := Without(sockets, conn);
      HandleDisconnect(conn);
    }

    /** The message callback: a parsed message goes to handleMessage, text that does not
        parse earns a PARSE_ERROR. */
    method HandleMessage(conn: ConnId, msg: Inbound, now: int)
      modifies this
      ensures View() == Handle(old(View()), conn, msg, now)
    {
      match msg {
        case Join(p) => HandlePlayerJoin(conn, p);
        case Search(p) => HandleSearchMatch(p);
        case Action(p) => HandleBattleAction(p);
        case Heartbeat => SendMessage(conn, HeartbeatReply(now));
        case Unhandled(t) => SendMessage(conn, Error("UNKNOWN_TYPE", "Unknown message type: " + t));
        case Malformed => SendMessage(conn, Error("PARSE_ERROR", "Failed to parse message"));
      }
    }

    /** handlePlayerJoin */
    method HandlePlayerJoin(conn: ConnId, p: PlayerJoinPayload)
      modifies this
      ensures View() == WsServer.Join(old(View()), conn, p)
    {
      if p.userId !in clients {
        order := order + [p.userId];
      }
      clients := clients[p.userId := Client(conn, p.userId, p.petId, p.petName, p.level, p.hp, p.maxHp, Idle, None)];
      BroadcastOnlineCount();
    }

    /** handleSearchMatch */
    method HandleSearchMatch(p: SearchMatchPayload)
      modifies this
      ensures View() == WsServer.Search(old(View()), p)
    {
      if p.userId !in clients {
        return;
      }
      clients := clients[p.userId := clients[p.userId].(status := Searching)];
      matchQueue := matchQueue + [p.userId];
      TryMatchPlayers();
    }

    /** tryMatchPlayers: the loop takes two ids off the front of the queue per turn. */
    method TryMatchPlayers()
      modifies this
      ensures View() == PairAll(old(View()))
    {
      while |matchQueue| >= 2
        invariant PairAll(View()) == PairAll(old(View()))
        decreases |matchQueue|
      {
        ghost var before := View();
        PairAllUnfold(before);
        var p1 := matchQueue[0];
        var p2 := matchQueue[1];
        matchQueue := matchQueue[2..];
        assert View() == before.(matchQueue := before.matchQueue[2..]);
        if p1 !in clients || p2 !in clients {
          PairFrontDrops(before);
          continue;
        }
        PairPlayers(p1, p2);
        PairFrontPairs(before);
      }
    }

    /** One pairing of tryMatchPlayers: both battling under the next match number, the
        battle stored, MATCH_FOUND and BATTLE_START sent to both. */
    method PairPlayers(p1: int, p2: int)
      requires p1 in clients && p2 in clients
      modifies this
      ensures View() == Paired(old(View()), p1, p2)
    {
      var m := nextMatch;
      var player1 := clients[p1];
      clients := clients[p1 := player1.(status := Battling, matchId := Some(m))];
      var player2 := clients[p2];
      clients := clients[p2 := player2.(status := Battling, matchId := Some(m))];
      battles := battles[m := Session(m, p1, p2, player1.hp, player2.hp, 0, [])];
      nextMatch := m + 1;
      SendMessage(player1.ws, MatchFound(m, Card(player2)));
      SendMessage(player2.ws, MatchFound(m, Card(player1)));
      SendMessage(player1.ws, BattleStart(m, Card(player1), Card(player2)));
      SendMessage(player2.ws, BattleStart(m, Card(player1), Card(player2)));
    }

    /** handleBattleAction */
    method HandleBattleAction(p: BattleActionPayload)
      modifies this
      ensures View() == Act(old(View()), p)
    {
      if p.matchId !in battles {
        return;
      }
      var battle := battles[p.matchId];
      ghost var original := battle;
      var isPlayer1 := battle.player1Id == p.actorId;
      var damage := if p.damage.Some? then p.damage.value else 0;
      if isPlayer1 {
        battle := battle.(player2Hp := Max(0, battle.player2Hp - damage));
      } else {
        battle := battle.(player1Hp := Max(0, battle.player1Hp - damage));
      }
      var entry := BattleLogEntry(battle.currentTurn, p.actorId, p.actionType, damage,
                                  p.isCritical.Some? && p.isCritical.value, p.isDodge.Some? && p.isDodge.value,
                                  if isPlayer1 then battle.player2Hp else battle.player1Hp);
      battle := battle.(battleLog := battle.battleLog + [entry]);
      assert battle == Logged(original, p);
      RelayAction(battle.player1Id, battle.player2Id, p);
      if battle.player1Hp <= 0 || battle.player2Hp <= 0 {
        EndBattle(battle);
      } else {
        battles := battles[p.matchId := battle.(currentTurn := battle.currentTurn + 1)];
      }
    }

    /** The relay of an action to both players of its battle, each when registered. */
    method RelayAction(player1Id: int, player2Id: int, p: BattleActionPayload)
      modifies this`outbox
      ensures outbox == old(outbox) + RelayTo(clients, player1Id, p) + RelayTo(clients, player2Id, p)
    {
      if player1Id in clients {
        SendMessage(clients[player1Id].ws, ActionRelay(p));
      }
      if player2Id in clients {
        SendMessage(clients[player2Id].ws, ActionRelay(p));
      }
    }

    /** endBattle */
    method EndBattle(battle: Session)
      modifies this
      ensures View() == EndSession(old(View()), battle)
    {
      var payload := EndPayload(battle);
      if battle.player1Id in clients {
        clients := clients[battle.player1Id := clients[battle.player1Id].(status := Idle)];
        SendMessage(clients[battle.player1Id].ws, BattleEnd(payload));
      }
      if battle.player2Id in clients {
        clients := clients[battle.player2Id := clients[battle.player2Id].(status := Idle)];
        SendMessage(clients[battle.player2Id].ws, BattleEnd(payload));
      }
      battles := battles - {battle.matchId};
    }

    /** handleDisconnect: the first client on the socket, in Map order, is removed; its
        id leaves the queue; the battles are visited in ascending match order and each
        one it is in is settled; then the online count is broadcast. */
    method HandleDisconnect(conn: ConnId)
      modifies this
      ensures View() == Disconnect(old(View()), conn)
    {
      var found: Option<int> := None;
      var i := 0;
      while i < |order|
        invariant 0 <= i <= |order| && View() == old(View())
        invariant found.None? ==> forall j :: 0 <= j < i ==> !(order[j] in clients && clients[order[j]].ws == conn)
        invariant found.Some? ==> found == FindByConn(order, clients, conn)
        decreases |order| - i, found.None?
      {
        if found.Some? {
          break;
        }
        if order[i] in clients && clients[order[i]].ws == conn {
          FindByConnFirst(order, clients, conn, i);
          found := Some(order[i]);
        } else {
          i := i + 1;
        }
      }
      if found.None? {
        forall u | u in order && u in clients
          ensures clients[u].ws != conn
        {
          var j :| 0 <= j < |order| && order[j] == u;
        }
        return;
      }
      var u := found.value;
      clients := clients - {u};
      order := Without(order, u);
      matchQueue := Without(matchQueue, u);
      ghost var removed := View();
      assert removed == Removed(old(View()), u);
      var m := 0;
      while m < nextMatch
        invariant SettleFrom(View(), u, m) == SettleFrom(removed, u, 0)
        invariant nextMatch == removed.nextMatch && m <= nextMatch
        decreases nextMatch - m
      {
        SettleBattle(u, m);
        m := m + 1;
      }
      BroadcastOnlineCount();
    }

    /** One turn of handleDisconnect's battle loop. */
    method SettleBattle(u: int, m: MatchId)
      modifies this
      ensures View() == SettleOne(old(View()), u, m)
    {
      if m in battles && (battles[m].player1Id == u || battles[m].player2Id == u) {
        var battle := battles[m];
        battles := battles - {m};
        var opponentId := if battle.player1Id == u then battle.player2Id else battle.player1Id;
        if opponentId in clients {
          clients := clients[opponentId := clients[opponentId].(status := Idle)];
          SendMessage(clients[opponentId].ws,
                      BattleEnd(BattleEndPayload(m, opponentId, u, GoldReward, ExpReward, battle.battleLog)));
        }
      }
    }

    /** broadcastOnlineCount: one ONLINE_PLAYERS message per open socket. */
    method BroadcastOnlineCount()
      modifies this`outbox
      ensures View() == Broadcast(old(View()))
    {
      var msg := OnlinePlayers(OnlinePayload(View()));
      for k := 0 to |sockets|
        invariant outbox == old(outbox) + SendAll(sockets[..k], msg)
      {
        SendAllStep(sockets, k, msg);
        SendMessage(sockets[k], msg);
      }
      assert sockets[..|sockets|] == sockets;
    }

    /** getOnlineCount: the number of registered clients, which is also the number of
        distinct ids in the registration order. */
    method GetOnlineCount() returns (n: int)
      requires Valid(View())
      ensures n == |clients| && n == |order|
      ensures n == OnlinePayload(View()).count
    {
      DistinctCard(order, clients.Keys);
      n := |clients|;
    }
  }

  /** The recursive search finds the first matching id. */
  lemma {:induction false} FindByConnFirst(order: seq<int>, clients: map<int, Client>, conn: ConnId, i: int)
    requires 0 <= i < |order| && order[i] in clients && clients[order[i]].ws == conn
    requires forall j :: 0 <= j < i ==> !(order[j] in clients && clients[order[j]].ws == conn)
    ensures FindByConn(order, clients, conn) == Some(order[i])
  {
    if i > 0 {
      assert forall j :: 0 <= j < i - 1 ==> order[1..][j] == order[j + 1];
      FindByConnFirst(order[1..], clients, conn, i - 1);
    }
  }

  lemma PairAllUnfold(s: Server)
    requires |s.matchQueue| >= 2
    ensures PairAll(s) == PairAll(PairFront(s))
  {
  }

  lemma PairFrontDrops(s: Server)
    requires |s.matchQueue| >= 2 && (s.matchQueue[0] !in s.clients || s.matchQueue[1] !in s.clients)
    ensures PairFront(s) == s.(matchQueue := s.matchQueue[2..])
  {
  }

  lemma PairFrontPairs(s: Server)
    requires |s.matchQueue| >= 2 && s.matchQueue[0] in s.clients && s.matchQueue[1] in s.clients
    ensures PairFront(s) == Paired(s.(matchQueue := s.matchQueue[2..]), s.matchQueue[0], s.matchQueue[1])
  {
  }

  lemma SendAllStep(conns: seq<ConnId>, k: int, msg: Outbound)
    requires 0 <= k < |conns|
    ensures SendAll(conns[..k + 1], msg) == SendAll(conns[..k], msg) + [Sent(conns[k], msg)]
  {
    var a, b := SendAll(conns[..k + 1], msg), SendAll(conns[..k], msg) + [Sent(conns[k], msg)];
    assert |a| == |b|;
    forall j | 0 <= j < |a|
      ensures a[j] == b[j]
    {
    }
  }
}
