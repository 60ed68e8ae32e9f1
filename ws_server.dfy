/** What the realtime server (server/websocket.ts) does with each event, as functions
    on a snapshot of its state: the registered clients (with the order in which their
    ids were first registered, the order the clients Map iterates in), the match queue,
    the live battles, the next match number, the open sockets and every message sent
    so far. Match numbers are handed out in increasing order, so ascending numbers are
    also the order the battles Map iterates in. */
module WsServer {
  import opened Wrappers
  import opened WsProtocol

  datatype Server = Server(
    clients: map<int, Client>,
    order: seq<int>,
    matchQueue: seq<int>,
    battles: map<MatchId, Session>,
    nextMatch: nat,
    sockets: seq<ConnId>,
    outbox: seq<Sent>)

  /** The server as constructed: nothing registered, queued, fought, open or sent. */
  const Empty: Server := Server(map[], [], [], map[], 0, [], [])

  predicate Distinct(s: seq<int>)
  {
    forall i, j :: 0 <= i < j < |s| ==> s[i] != s[j]
  }

  /** Between events no two ids wait in the queue, and the tables are consistent. */
  ghost predicate Valid(s: Server)
  {
    |s.matchQueue| < 2 && Consistent(s)
  }

  /** The order lists each registered id once, every client is stored under its own id,
      every battle under its own number, and every number is below the next one. */
  ghost predicate Consistent(s: Server)
  {
    && Distinct(s.order)
    && (forall u :: u in s.clients <==> u in s.order)
    && (forall u :: u in s.clients ==> s.clients[u].userId == u)
    && (forall m :: m in s.battles ==> s.battles[m].matchId == m && 0 <= m < s.nextMatch)
  }

  /** One message to each socket, in order. */
  function SendAll(conns: seq<ConnId>, msg: Outbound): (r: seq<Sent>)
    ensures |r| == |conns|
    ensures forall i :: 0 <= i < |conns| ==> r[i] == Sent(conns[i], msg)
  {
    if conns == [] then [] else [Sent(conns[0], msg)] + SendAll(conns[1..], msg)
  }

  /** The player list of ONLINE_PLAYERS, in registration order. */
  function Summaries(order: seq<int>, clients: map<int, Client>): (r: seq<PlayerSummary>)
    ensures |r| <= |order|
  {
    if order == [] then []
    else
      var rest := Summaries(order[1..], clients);
      if order[0] in clients then
        var c := clients[order[0]];
        [PlayerSummary(c.userId, c.petName, c.level, c.status)] + rest
      else rest
  }

  lemma {:induction false} SummariesLength(order: seq<int>, clients: map<int, Client>)
    requires forall i :: 0 <= i < |order| ==> order[i] in clients
    ensures |Summaries(order, clients)| == |order|
  {
    if order != [] {
      assert forall i :: 0 <= i < |order[1..]| ==> order[1..][i] == order[i + 1];
      SummariesLength(order[1..], clients);
    }
  }

  function OnlinePayload(s: Server): OnlinePlayersPayload
  {
    OnlinePlayersPayload(|s.clients|, Summaries(s.order, s.clients))
  }

  /** broadcastOnlineCount: ONLINE_PLAYERS to every open socket. */
  function Broadcast(s: Server): (r: Server)
    ensures r.(outbox := s.outbox) == s
    ensures r.outbox == s.outbox + SendAll(s.sockets, OnlinePlayers(OnlinePayload(s)))
  {
    s.(outbox := s.outbox + SendAll(s.sockets, OnlinePlayers(OnlinePayload(s))))
  }

  /** A duplicate-free sequence has as many elements as the set of its elements. */
  lemma {:induction false} DistinctCard(order: seq<int>, keys: set<int>)
    requires Distinct(order)
    requires forall u :: u in keys <==> u in order
    ensures |keys| == |order|
  {
    if order != [] {
      var x := order[0];
      var rest := keys - {x};
      assert x in keys;
      forall u
        ensures u in rest <==> u in order[1..]
      {
        if u in order[1..] {
          var i :| 0 <= i < |order[1..]| && order[1..][i] == u;
          assert order[i + 1] == u && order[0] != order[i + 1];
        }
        if u in rest {
          var i :| 0 <= i < |order| && order[i] == u;
          assert i != 0;
          assert order[1..][i - 1] == u;
        }
      }
      assert Distinct(order[1..]) by {
        forall i, j | 0 <= i < j < |order[1..]|
          ensures order[1..][i] != order[1..][j]
        {
          assert order[1..][i] == order[i + 1] && order[1..][j] == order[j + 1];
        }
      }
      DistinctCard(order[1..], rest);
      assert |keys| == |rest| + 1;
    } else {
      assert forall u :: u !in keys;
      assert keys == {};
    }
  }

  /** The count of ONLINE_PLAYERS is the number of registered clients (what
      getOnlineCount returns), and its list has exactly that many entries. */
  lemma OnlineCountIsClientCount(s: Server)
    requires Valid(s)
    ensures OnlinePayload(s).count == |s.clients|
    ensures |OnlinePayload(s).players| == |s.clients|
  {
    DistinctCard(s.order, s.clients.Keys);
    assert forall i :: 0 <= i < |s.order| ==> s.order[i] in s.order;
    SummariesLength(s.order, s.clients);
  }

  /** handlePlayerJoin: the player is stored, idle, under its user id, replacing any
      earlier record for that id (which keeps its place in the order); then the online
      count is broadcast. */
  function Join(s: Server, conn: ConnId, p: PlayerJoinPayload): Server
  {
    var c := Client(conn, p.userId, p.petId, p.petName, p.level, p.hp, p.maxHp, Idle, None);
    Broadcast(s.(
      clients := s.clients[p.userId := c],
      order := if p.userId in s.clients then s.order else s.order + [p.userId]))
  }

  /** Joining stores the new record idle and without a match, leaves every other client,
      the queue and the battles as they were, and keeps the invariant. */
  lemma JoinRegistersIdle(s: Server, conn: ConnId, p: PlayerJoinPayload)
    requires Valid(s)
    ensures Valid(Join(s, conn, p))
    ensures Join(s, conn, p).clients[p.userId] == Client(conn, p.userId, p.petId, p.petName, p.level, p.hp, p.maxHp, Idle, None)
    ensures forall u :: u in s.clients && u != p.userId ==> u in Join(s, conn, p).clients && Join(s, conn, p).clients[u] == s.clients[u]
    ensures Join(s, conn, p).clients.Keys == s.clients.Keys + {p.userId}
    ensures Join(s, conn, p).matchQueue == s.matchQueue && Join(s, conn, p).battles == s.battles
  {
    var c := Client(conn, p.userId, p.petId, p.petName, p.level, p.hp, p.maxHp, Idle, None);
    var order := if p.userId in s.clients then s.order else s.order + [p.userId];
    var t := s.(clients := s.clients[p.userId := c], order := order);
    assert Valid(t) by {
      if p.userId !in s.clients {
        assert p.userId !in s.order;
        AppendDistinct(s.order, p.userId);
      }
      assert Distinct(order);
      assert forall u :: u in t.clients <==> u in order;
    }
    assert Join(s, conn, p) == Broadcast(t);
    BroadcastKeepsTables(t);
  }

  /** The broadcast changes only the outbox, so it keeps the invariant. */
  lemma BroadcastKeepsTables(s: Server)
    requires Valid(s)
    ensures Valid(Broadcast(s))
  {
    var r := Broadcast(s);
    assert r.clients == s.clients && r.order == s.order && r.matchQueue == s.matchQueue;
    assert r.battles == s.battles && r.nextMatch == s.nextMatch;
  }

  lemma AppendDistinct(order: seq<int>, u: int)
    requires Distinct(order) && u !in order
    ensures Distinct(order + [u])
  {
    forall i, j | 0 <= i < j < |order + [u]|
      ensures (order + [u])[i] != (order + [u])[j]
    {
      if j == |order| {
        assert (order + [u])[i] == order[i];
        assert order[i] in order;
      }
    }
  }

  /** One pairing of tryMatchPlayers: both players battling under a new match number,
      a battle with their join-time HP at turn 0 with an empty log, then MATCH_FOUND and
      BATTLE_START to both (the one-second delay of BATTLE_START is not modelled). */
  function Paired(s: Server, p1: int, p2: int): (r: Server)
    requires p1 in s.clients && p2 in s.clients
    ensures r.nextMatch == s.nextMatch + 1 && r.matchQueue == s.matchQueue && r.order == s.order
    ensures r.clients.Keys == s.clients.Keys && r.sockets == s.sockets
  {
    var m := s.nextMatch;
    var player1, player2 := s.clients[p1], s.clients[p2];
    var clients1 := s.clients[p1 := player1.(status := Battling, matchId := Some(m))];
    var clients2 := clients1[p2 := clients1[p2].(status := Battling, matchId := Some(m))];
    s.(
      clients := clients2,
      battles := s.battles[m := Session(m, p1, p2, player1.hp, player2.hp, 0, [])],
      nextMatch := m + 1,
      outbox := s.outbox + [
        Sent(player1.ws, MatchFound(m, Card(player2))),
        Sent(player2.ws, MatchFound(m, Card(player1))),
        Sent(player1.ws, BattleStart(m, Card(player1), Card(player2))),
        Sent(player2.ws, BattleStart(m, Card(player1), Card(player2)))])
  }

  /** A pairing puts both players in battle under the next match number and changes no
      other client, stores a battle at turn 0 with an empty log and both players' HP from
      their join, which takes a number no battle holds yet, and sends MATCH_FOUND to
      player 1 then player 2, each naming the other, then BATTLE_START to both. */
  lemma PairedStartsBattle(s: Server, p1: int, p2: int)
    requires p1 in s.clients && p2 in s.clients
    ensures var r := Paired(s, p1, p2);
            && r.clients[p1] == s.clients[p1].(status := Battling, matchId := Some(s.nextMatch))
            && r.clients[p2] == s.clients[p2].(status := Battling, matchId := Some(s.nextMatch))
            && (forall u :: u in s.clients && u != p1 && u != p2 ==> r.clients[u] == s.clients[u])
    ensures var r := Paired(s, p1, p2);
            && r.battles == s.battles[s.nextMatch := Session(s.nextMatch, p1, p2, s.clients[p1].hp, s.clients[p2].hp, 0, [])]
            && (Consistent(s) ==> s.nextMatch !in s.battles && Consistent(r))
    ensures var r := Paired(s, p1, p2);
            var m, c1, c2 := s.nextMatch, s.clients[p1], s.clients[p2];
            && |r.outbox| == |s.outbox| + 4 && r.outbox[..|s.outbox|] == s.outbox
            && r.outbox[|s.outbox|] == Sent(c1.ws, MatchFound(m, Card(c2)))
            && r.outbox[|s.outbox| + 1] == Sent(c2.ws, MatchFound(m, Card(c1)))
            && r.outbox[|s.outbox| + 2] == Sent(c1.ws, BattleStart(m, Card(c1), Card(c2)))
            && r.outbox[|s.outbox| + 3] == Sent(c2.ws, BattleStart(m, Card(c1), Card(c2)))
  {
    var r := Paired(s, p1, p2);
    assert r.outbox[..|s.outbox|] == s.outbox;
    if Consistent(s) {
      assert s.nextMatch !in s.battles;
      assert forall u :: u in r.clients ==> r.clients[u].userId == u;
    }
  }

  /** One turn of tryMatchPlayers' loop: the front two ids are taken off the queue; a
      pair with a missing client is dropped whole, otherwise the two are paired. */
  function PairFront(s: Server): (r: Server)
    requires |s.matchQueue| >= 2
    ensures r.matchQueue == s.matchQueue[2..]
    ensures r.nextMatch >= s.nextMatch && r.order == s.order && r.sockets == s.sockets
    ensures r.clients.Keys == s.clients.Keys
  {
    var p1, p2 := s.matchQueue[0], s.matchQueue[1];
    var rest := s.(matchQueue := s.matchQueue[2..]);
    if p1 !in s.clients || p2 !in s.clients then rest else Paired(rest, p1, p2)
  }

  /** What pairing from `s` down to `r` keeps: the last `|queue| mod 2` ids stay queued,
      match numbers only grow, and the order, the sockets and the client ids are kept. */
  predicate PairedDown(s: Server, r: Server)
  {
    && |r.matchQueue| == |s.matchQueue| % 2 && |r.matchQueue| <= |s.matchQueue|
    && r.matchQueue == s.matchQueue[|s.matchQueue| - |r.matchQueue|..]
    && r.nextMatch >= s.nextMatch && r.order == s.order && r.sockets == s.sockets
    && r.clients.Keys == s.clients.Keys
  }

  /** tryMatchPlayers: pairs from the front while two ids are queued. The queue ends
      shorter than two, holding the last id when its length was odd. */
  function PairAll(s: Server): (r: Server)
    ensures PairedDown(s, r)
    decreases |s.matchQueue|
  {
    if |s.matchQueue| < 2 then
      ShortQueueStays(s);
      s
    else
      var next := PairFront(s);
      var r := PairAll(next);
      PairAllStep(s, next, r);
      r
  }

  /** The contract of PairAll carries over one turn of the loop. */
  lemma PairAllStep(s: Server, next: Server, r: Server)
    requires |s.matchQueue| >= 2 && next.matchQueue == s.matchQueue[2..]
    requires next.nextMatch >= s.nextMatch && next.order == s.order && next.sockets == s.sockets
    requires next.clients.Keys == s.clients.Keys
    requires PairedDown(next, r)
    ensures PairedDown(s, r)
  {
    SuffixOfTail(s.matchQueue, next.matchQueue, r.matchQueue);
    ParityAfterTwo(|s.matchQueue|, |r.matchQueue|);
  }

  lemma ShortQueueStays(s: Server)
    requires |s.matchQueue| < 2
    ensures PairedDown(s, s)
  {
    assert s.matchQueue[0..] == s.matchQueue;
  }

  lemma ParityAfterTwo(n: int, k: int)
    requires n >= 2 && k == (n - 2) % 2
    ensures k == n % 2 && k <= n
  {
  }

  lemma SuffixOfTail(q: seq<int>, tail: seq<int>, r: seq<int>)
    requires |q| >= 2 && tail == q[2..] && |r| <= |tail| && r == tail[|tail| - |r|..]
    ensures r == q[|q| - |r|..]
  {
    assert q[2..][|q| - 2 - |r|..] == q[|q| - |r|..];
  }

  /** Pairing keeps the invariant: each new battle gets the next number. */
  lemma {:induction false} PairAllKeepsConsistent(s: Server)
    requires Consistent(s)
    ensures Valid(PairAll(s))
    decreases |s.matchQueue|
  {
    if |s.matchQueue| >= 2 {
      var p1, p2 := s.matchQueue[0], s.matchQueue[1];
      var rest := s.(matchQueue := s.matchQueue[2..]);
      if p1 in s.clients && p2 in s.clients {
        assert Consistent(Paired(rest, p1, p2));
      }
      PairAllKeepsConsistent(PairFront(s));
    }
  }

  /** handleSearchMatch: an unregistered id changes nothing; otherwise the client is
      searching, its id is appended to the queue, duplicates and all, and pairing runs. */
  function Search(s: Server, p: SearchMatchPayload): (r: Server)
    ensures p.userId !in s.clients ==> r == s
    ensures p.userId in s.clients ==> |r.matchQueue| < 2
  {
    if p.userId !in s.clients then s
    else
      PairAll(s.(
        clients := s.clients[p.userId := s.clients[p.userId].(status := Searching)],
        matchQueue := s.matchQueue + [p.userId]))
  }

  /** Once a registered id is queued alone, the same id searching again is paired with
      itself: the queue is never checked for duplicates. */
  lemma SearchTwicePairsWithSelf(s: Server, p: SearchMatchPayload)
    requires Valid(s) && p.userId in s.clients && s.matchQueue == [p.userId]
    ensures var r := Search(s, p);
            && s.nextMatch in r.battles
            && r.battles[s.nextMatch].player1Id == p.userId && r.battles[s.nextMatch].player2Id == p.userId
            && r.matchQueue == []
  {
    var u := p.userId;
    var searching := s.(clients := s.clients[u := s.clients[u].(status := Searching)], matchQueue := s.matchQueue + [u]);
    assert searching.matchQueue == [u, u];
    var next := PairFront(searching);
    assert next == Paired(searching.(matchQueue := []), u, u);
    assert PairAll(searching) == PairAll(next) == next;
  }

  /** A registered id searching on an empty queue waits there alone, searching, and
      nothing else changes. */
  lemma SearchAloneWaits(s: Server, p: SearchMatchPayload)
    requires p.userId in s.clients && s.matchQueue == []
    ensures var r := Search(s, p);
            && r.matchQueue == [p.userId]
            && r.clients == s.clients[p.userId := s.clients[p.userId].(status := Searching)]
            && r.battles == s.battles && r.nextMatch == s.nextMatch && r.outbox == s.outbox
  {
    var u := p.userId;
    var searching := s.(clients := s.clients[u := s.clients[u].(status := Searching)], matchQueue := s.matchQueue + [u]);
    assert searching.matchQueue == [p.userId];
    PairAllShort(searching);
  }

  lemma PairAllShort(s: Server)
    requires |s.matchQueue| < 2
    ensures PairAll(s) == s
  {
  }

  /** A registered id searching while a registered id waits is paired with it at once:
      the waiting id is player 1, the new one player 2, both battling under the next match
      number, and the queue is left empty. */
  lemma {:induction false} SearchPairsWithWaiting(s: Server, p: SearchMatchPayload)
    requires p.userId in s.clients && |s.matchQueue| == 1 && s.matchQueue[0] in s.clients
    ensures var r := Search(s, p);
            var u, v, m := p.userId, s.matchQueue[0], s.nextMatch;
            && r.matchQueue == []
            && r.clients[v].status == Battling && r.clients[v].matchId == Some(m)
            && r.clients[u].status == Battling && r.clients[u].matchId == Some(m)
            && r.battles == s.battles[m := Session(m, v, u, s.clients[v].hp, s.clients[u].hp, 0, [])]
            && r.nextMatch == m + 1 && |r.outbox| == |s.outbox| + 4
  {
    var u, v := p.userId, s.matchQueue[0];
    var searching := s.(clients := s.clients[u := s.clients[u].(status := Searching)], matchQueue := s.matchQueue + [u]);
    assert searching.matchQueue == [v, u];
    var next := PairFront(searching);
    assert next == Paired(searching.(matchQueue := []), v, u);
    assert PairAll(searching) == PairAll(next) == next;
    PairedStartsBattle(searching.(matchQueue := []), v, u);
  }

  /** A registered id searching while an id that has since left waits drops both: the
      pair is taken off the queue whole, so the searcher is left searching but queued
      nowhere. */
  lemma {:induction false} SearchDropsAbsentWaiter(s: Server, p: SearchMatchPayload)
    requires p.userId in s.clients && |s.matchQueue| == 1 && s.matchQueue[0] !in s.clients
    ensures var r := Search(s, p);
            && r.matchQueue == [] && r.clients[p.userId].status == Searching
            && r.battles == s.battles && r.nextMatch == s.nextMatch && r.outbox == s.outbox
  {
    var u := p.userId;
    var searching := s.(clients := s.clients[u := s.clients[u].(status := Searching)], matchQueue := s.matchQueue + [u]);
    assert searching.matchQueue == [s.matchQueue[0], u];
    var next := PairFront(searching);
    assert next == searching.(matchQueue := []);
    assert PairAll(searching) == PairAll(next) == next;
  }

  /** `payload.damage || 0` */
  function DamageOf(p: BattleActionPayload): int
  {
    if p.damage.Some? then p.damage.value else 0
  }

  /** `flag || false` */
  function Flag(f: Option<bool>): bool
  {
    f.Some? && f.value
  }

  /** The relay of an action to one participant, when it is registered. */
  function RelayTo(clients: map<int, Client>, u: int, p: BattleActionPayload): seq<Sent>
  {
    if u in clients then [Sent(clients[u].ws, ActionRelay(p))] else []
  }

  /** A registered participant of an ended battle goes back to idle and receives
      BATTLE_END; an absent one is skipped. */
  function Released(s: Server, u: int, payload: BattleEndPayload): (r: Server)
    ensures r.clients.Keys == s.clients.Keys && r.battles == s.battles && r.nextMatch == s.nextMatch
    ensures r.order == s.order && r.matchQueue == s.matchQueue && r.sockets == s.sockets
    ensures u in s.clients ==> r.clients == s.clients[u := s.clients[u].(status := Idle)]
                               && r.outbox == s.outbox + [Sent(s.clients[u].ws, BattleEnd(payload))]
    ensures u !in s.clients ==> r == s
  {
    if u in s.clients then
      s.(clients := s.clients[u := s.clients[u].(status := Idle)],
         outbox := s.outbox + [Sent(s.clients[u].ws, BattleEnd(payload))])
    else s
  }

  /** The BATTLE_END payload of a battle: player 1 wins when it still has HP, otherwise
      player 2 wins; the rewards are flat. */
  function EndPayload(b: Session): BattleEndPayload
  {
    var winnerId := if b.player1Hp > 0 then b.player1Id else b.player2Id;
    var loserId := if b.player1Hp > 0 then b.player2Id else b.player1Id;
    BattleEndPayload(b.matchId, winnerId, loserId, GoldReward, ExpReward, b.battleLog)
  }

  /** The payload names the two players of the battle as winner and loser, one each,
      and the winner is player 1 exactly when player 1 has HP left. */
  lemma EndPayloadNamesBothPlayers(b: Session)
    ensures var e := EndPayload(b);
            && {e.winnerId, e.loserId} == {b.player1Id, b.player2Id}
            && (b.player1Id != b.player2Id ==> (e.winnerId == b.player1Id <==> b.player1Hp > 0))
            && e.goldEarned == 100 && e.expEarned == 50 && e.matchId == b.matchId && e.battleLog == b.battleLog
  {
  }

  /** endBattle: both present players released with the same payload, player 1 first,
      then the battle is deleted. */
  function EndSession(s: Server, b: Session): (r: Server)
    ensures r.battles == s.battles - {b.matchId} && r.clients.Keys == s.clients.Keys
    ensures r.order == s.order && r.matchQueue == s.matchQueue && r.nextMatch == s.nextMatch && r.sockets == s.sockets
  {
    var payload := EndPayload(b);
    var s2 := Released(Released(s, b.player1Id, payload), b.player2Id, payload);
    s2.(battles := s2.battles - {b.matchId})
  }

  /** Ending a battle sends BATTLE_END to each present player and returns it to idle,
      leaves every other client alone, and only appends to the messages sent. */
  lemma EndSessionReleasesBoth(s: Server, b: Session)
    ensures var r := EndSession(s, b);
            && (forall u :: u in s.clients && (u == b.player1Id || u == b.player2Id) ==>
                  r.clients[u] == s.clients[u].(status := Idle)
                  && Sent(s.clients[u].ws, BattleEnd(EndPayload(b))) in r.outbox[|s.outbox|..])
            && (forall u :: u in s.clients && u != b.player1Id && u != b.player2Id ==> r.clients[u] == s.clients[u])
            && |s.outbox| <= |r.outbox| && r.outbox[..|s.outbox|] == s.outbox
  {
    var payload := EndPayload(b);
    var s1 := Released(s, b.player1Id, payload);
    var s2 := Released(s1, b.player2Id, payload);
    var r := EndSession(s, b);
    assert r.clients == s2.clients && r.outbox == s2.outbox;
    var t1 := if b.player1Id in s.clients then [Sent(s.clients[b.player1Id].ws, BattleEnd(payload))] else [];
    var t2 := if b.player2Id in s1.clients then [Sent(s1.clients[b.player2Id].ws, BattleEnd(payload))] else [];
    assert s1.outbox == s.outbox + t1;
    assert r.outbox == s.outbox + (t1 + t2);
    assert r.outbox[|s.outbox|..] == t1 + t2;
    assert r.outbox[..|s.outbox|] == s.outbox;
    forall u | u in s.clients && (u == b.player1Id || u == b.player2Id)
      ensures r.clients[u] == s.clients[u].(status := Idle)
      ensures Sent(s.clients[u].ws, BattleEnd(payload)) in r.outbox[|s.outbox|..]
    {
      if u == b.player1Id {
        assert Sent(s.clients[u].ws, BattleEnd(payload)) in t1;
      } else {
        assert s1.clients[u] == s.clients[u];
        assert Sent(s.clients[u].ws, BattleEnd(payload)) in t2;
      }
    }
  }

  /** The battle after an action hits: the target is player 2 exactly when the actor is
      player 1; any other actor, a stranger included, hits player 1. */
  function Hit(b: Session, p: BattleActionPayload): (r: Session)
    ensures b.player1Id == p.actorId ==> r == b.(player2Hp := Max(0, b.player2Hp - DamageOf(p)))
    ensures b.player1Id != p.actorId ==> r == b.(player1Hp := Max(0, b.player1Hp - DamageOf(p)))
  {
    if b.player1Id == p.actorId then b.(player2Hp := Max(0, b.player2Hp - DamageOf(p)))
    else b.(player1Hp := Max(0, b.player1Hp - DamageOf(p)))
  }

  /** The battle after an action: hit, with one log entry recording the turn and the
      target's new HP. */
  function Logged(b: Session, p: BattleActionPayload): (r: Session)
    ensures var h := Hit(b, p);
            r == h.(battleLog := b.battleLog + [BattleLogEntry(b.currentTurn, p.actorId, p.actionType, DamageOf(p),
                                                               Flag(p.isCritical), Flag(p.isDodge),
                                                               if b.player1Id == p.actorId then h.player2Hp else h.player1Hp)])
  {
    var hit := Hit(b, p);
    var entry := BattleLogEntry(b.currentTurn, p.actorId, p.actionType, DamageOf(p), Flag(p.isCritical), Flag(p.isDodge),
                                if b.player1Id == p.actorId then hit.player2Hp else hit.player1Hp);
    hit.(battleLog := b.battleLog + [entry])
  }

  /** handleBattleAction: an unknown match changes nothing. Otherwise the target's HP
      drops by the declared damage (not clamped), floored at zero, one log entry records
      the turn and the target's new HP, the action is relayed to both present players,
      and the battle ends when either HP is at zero or below; otherwise the turn
      advances. */
  function Act(s: Server, p: BattleActionPayload): (r: Server)
    ensures p.matchId !in s.battles ==> r == s
  {
    if p.matchId !in s.battles then s
    else
      var b := s.battles[p.matchId];
      var logged := Logged(b, p);
      var s1 := s.(outbox := s.outbox + RelayTo(s.clients, b.player1Id, p) + RelayTo(s.clients, b.player2Id, p));
      if logged.player1Hp <= 0 || logged.player2Hp <= 0 then EndSession(s1, logged)
      else s1.(battles := s1.battles[p.matchId := logged.(currentTurn := b.currentTurn + 1)])
  }

  /** An action that leaves both HPs positive changes only the target's HP, appends one
      log entry carrying the turn and the target's new HP, and advances the turn. */
  lemma ActionHitsTarget(s: Server, p: BattleActionPayload)
    requires p.matchId in s.battles
    requires var h := Hit(s.battles[p.matchId], p); h.player1Hp > 0 && h.player2Hp > 0
    ensures var b := s.battles[p.matchId];
            var r := Act(s, p);
            var targetIsPlayer2 := b.player1Id == p.actorId;
            var oldHp := if targetIsPlayer2 then b.player2Hp else b.player1Hp;
            && p.matchId in r.battles
            && var n := r.battles[p.matchId];
            && r.clients == s.clients && r.matchQueue == s.matchQueue && r.order == s.order
            && r.battles == s.battles[p.matchId := n] && r.nextMatch == s.nextMatch
            && n.matchId == b.matchId && n.player1Id == b.player1Id && n.player2Id == b.player2Id
            && (targetIsPlayer2 ==> n.player2Hp == Max(0, oldHp - DamageOf(p)) && n.player1Hp == b.player1Hp)
            && (!targetIsPlayer2 ==> n.player1Hp == Max(0, oldHp - DamageOf(p)) && n.player2Hp == b.player2Hp)
            && |n.battleLog| == |b.battleLog| + 1 && n.battleLog[..|b.battleLog|] == b.battleLog
            && n.battleLog[|b.battleLog|].round == b.currentTurn
            && n.battleLog[|b.battleLog|].remainingHp == (if targetIsPlayer2 then n.player2Hp else n.player1Hp)
            && n.currentTurn == b.currentTurn + 1
  {
  }

  /** An action that brings either HP to zero deletes the battle, returns both present
      players to idle and sends each the BATTLE_END payload, whose winner is player 1
      exactly when player 1 has HP left. */
  lemma ActionEndsBattle(s: Server, p: BattleActionPayload)
    requires p.matchId in s.battles && s.battles[p.matchId].matchId == p.matchId
    requires var h := Hit(s.battles[p.matchId], p); h.player1Hp <= 0 || h.player2Hp <= 0
    ensures var r := Act(s, p);
            && r.battles == s.battles - {p.matchId}
            && r.clients.Keys == s.clients.Keys && r.order == s.order && r.matchQueue == s.matchQueue
            && r.nextMatch == s.nextMatch
    ensures var b := s.battles[p.matchId];
            forall u :: u in s.clients && u != b.player1Id && u != b.player2Id ==> Act(s, p).clients[u] == s.clients[u]
    ensures var b := s.battles[p.matchId];
            forall u :: u in s.clients && (u == b.player1Id || u == b.player2Id) ==>
                          Act(s, p).clients[u] == s.clients[u].(status := Idle)
    ensures var b := s.battles[p.matchId];
            var h := Hit(b, p);
            forall u :: u in s.clients && (u == b.player1Id || u == b.player2Id) ==>
                          exists e :: Sent(s.clients[u].ws, BattleEnd(e)) in Act(s, p).outbox
                                      && e.winnerId == (if h.player1Hp > 0 then b.player1Id else b.player2Id)
                                      && e.goldEarned == GoldReward && e.expEarned == ExpReward
  {
    var b := s.battles[p.matchId];
    var logged := Logged(b, p);
    var s1 := s.(outbox := s.outbox + RelayTo(s.clients, b.player1Id, p) + RelayTo(s.clients, b.player2Id, p));
    var r := EndSession(s1, logged);
    var e := EndPayload(logged);
    assert logged.player1Hp == Hit(b, p).player1Hp && logged.player2Hp == Hit(b, p).player2Hp;
    assert Act(s, p) == r;
    EndSessionReleasesBoth(s1, logged);
    forall u | u in s.clients && (u == b.player1Id || u == b.player2Id)
      ensures exists e :: Sent(s.clients[u].ws, BattleEnd(e)) in r.outbox
                          && e.winnerId == (if logged.player1Hp > 0 then b.player1Id else b.player2Id)
                          && e.goldEarned == GoldReward && e.expEarned == ExpReward
    {
      assert Sent(s.clients[u].ws, BattleEnd(e)) in r.outbox[|s1.outbox|..];
    }
  }

  /** The first registered id, in registration order, whose client uses the socket. */
  function FindByConn(order: seq<int>, clients: map<int, Client>, conn: ConnId): (r: Option<int>)
    ensures r.Some? ==> r.value in order && r.value in clients && clients[r.value].ws == conn
    ensures r.None? <==> forall u :: u in order && u in clients ==> clients[u].ws != conn
  {
    if order == [] then None
    else if order[0] in clients && clients[order[0]].ws == conn then Some(order[0])
    else
      assert forall u :: u in order <==> u == order[0] || u in order[1..];
      FindByConn(order[1..], clients, conn)
  }

  /** `ids.filter(id => id !== u)` */
  function Without(ids: seq<int>, u: int): (r: seq<int>)
    ensures forall x :: x in r <==> x in ids && x != u
    ensures |r| <= |ids|
    ensures Distinct(ids) ==> Distinct(r)
  {
    if ids == [] then []
    else
      var rest := Without(ids[1..], u);
      assert forall x :: x in ids <==> x == ids[0] || x in ids[1..];
      if ids[0] == u then rest
      else
        assert Distinct(ids) ==> ids[0] !in ids[1..];
        assert Distinct(ids) ==> Distinct(ids[1..]) by {
          if Distinct(ids) {
            forall i, j | 0 <= i < j < |ids[1..]|
              ensures ids[1..][i] != ids[1..][j]
            {
              assert ids[1..][i] == ids[i + 1] && ids[1..][j] == ids[j + 1];
            }
          }
        }
        [ids[0]] + rest
  }

  predicate Involves(b: Session, u: int)
  {
    b.player1Id == u || b.player2Id == u
  }

  /** One turn of the battle loop of handleDisconnect: a battle the leaver is in is
      deleted, and its other player, when registered, goes back to idle and receives
      BATTLE_END as the winner over the leaver. */
  function SettleOne(s: Server, u: int, m: MatchId): (r: Server)
    ensures r.nextMatch == s.nextMatch && r.order == s.order && r.matchQueue == s.matchQueue
    ensures r.sockets == s.sockets && r.clients.Keys == s.clients.Keys
    ensures m in s.battles && Involves(s.battles[m], u) ==> r.battles == s.battles - {m}
    ensures !(m in s.battles && Involves(s.battles[m], u)) ==> r == s
    ensures forall k :: k in r.clients ==> r.clients[k].userId == s.clients[k].userId
  {
    if m in s.battles && Involves(s.battles[m], u) then
      var b := s.battles[m];
      var opponentId := if b.player1Id == u then b.player2Id else b.player1Id;
      var s1 := s.(battles := s.battles - {m});
      if opponentId in s1.clients then
        s1.(clients := s1.clients[opponentId := s1.clients[opponentId].(status := Idle)],
            outbox := s1.outbox + [Sent(s1.clients[opponentId].ws,
                                        BattleEnd(BattleEndPayload(m, opponentId, u, GoldReward, ExpReward, b.battleLog)))])
      else s1
    else s
  }

  /** Settling a battle the leaver was in awards it to the other player, who goes back
      to idle and receives BATTLE_END naming it winner and the leaver loser, with the
      flat rewards and the battle's log. */
  lemma SettleOneAwardsOpponent(s: Server, u: int, m: MatchId)
    requires m in s.battles && Involves(s.battles[m], u)
    ensures var b := s.battles[m];
            var opponentId := if b.player1Id == u then b.player2Id else b.player1Id;
            var r := SettleOne(s, u, m);
            && (opponentId == b.player1Id || opponentId == b.player2Id)
            && (opponentId != u || b.player1Id == b.player2Id)
            && (opponentId in s.clients ==>
                  && r.clients == s.clients[opponentId := s.clients[opponentId].(status := Idle)]
                  && |r.outbox| == |s.outbox| + 1 && r.outbox[..|s.outbox|] == s.outbox
                  && r.outbox[|s.outbox|].conn == s.clients[opponentId].ws
                  && r.outbox[|s.outbox|].msg.BattleEnd?
                  && var e := r.outbox[|s.outbox|].msg.end;
                     e.winnerId == opponentId && e.loserId == u && e.matchId == m
                     && e.goldEarned == 100 && e.expEarned == 50 && e.battleLog == b.battleLog)
            && (opponentId !in s.clients ==> r.clients == s.clients && r.outbox == s.outbox)
  {
  }

  /** The battle loop of handleDisconnect from match number m on, in ascending order:
      every battle from m on that the leaver is in goes, the others stay. */
  function SettleFrom(s: Server, u: int, m: nat): (r: Server)
    ensures r.nextMatch == s.nextMatch && r.order == s.order && r.matchQueue == s.matchQueue
    ensures r.sockets == s.sockets && r.clients.Keys == s.clients.Keys
    ensures forall k :: k in r.battles ==> k in s.battles && r.battles[k] == s.battles[k]
    ensures forall k :: k in r.battles && m <= k < s.nextMatch ==> !Involves(r.battles[k], u)
    ensures forall k :: k in s.battles && (k < m || k >= s.nextMatch || !Involves(s.battles[k], u)) ==> k in r.battles
    ensures forall k :: k in r.clients ==> r.clients[k].userId == s.clients[k].userId
    decreases s.nextMatch - m
  {
    if m >= s.nextMatch then s
    else SettleFrom(SettleOne(s, u, m), u, m + 1)
  }

  /** handleDisconnect: a socket no registered client uses changes nothing. Otherwise the
      first client on it is removed, every queue occurrence of its id is purged, every
      battle it is in is settled, and the online count is broadcast. */
  function Disconnect(s: Server, conn: ConnId): (r: Server)
    ensures FindByConn(s.order, s.clients, conn).None? ==> r == s
  {
    match FindByConn(s.order, s.clients, conn)
    case None => s
    case Some(u) =>
      Broadcast(SettleFrom(Removed(s, u), u, 0))
  }

  /** The state right after the leaver is removed from the clients, the order and the
      queue. */
  function Removed(s: Server, u: int): (r: Server)
    ensures r.clients.Keys == s.clients.Keys - {u} && u !in r.order && u !in r.matchQueue
    ensures |r.matchQueue| <= |s.matchQueue| && r.battles == s.battles && r.nextMatch == s.nextMatch
  {
    s.(clients := s.clients - {u}, order := Without(s.order, u), matchQueue := Without(s.matchQueue, u))
  }

  lemma RemovedConsistent(s: Server, u: int)
    requires Consistent(s)
    ensures Consistent(Removed(s, u))
  {
  }

  lemma SettledConsistent(s: Server, u: int)
    requires Consistent(s)
    ensures Consistent(SettleFrom(s, u, 0))
  {
    var r := SettleFrom(s, u, 0);
    assert forall k :: k in r.clients <==> k in s.clients;
  }

  /** A player who disconnects is gone from the clients, the queue and every battle, the
      battles it was not in stay as they were, and the invariant holds again. */
  lemma DisconnectRemovesPlayer(s: Server, conn: ConnId)
    requires Valid(s)
    requires FindByConn(s.order, s.clients, conn).Some?
    ensures var u := FindByConn(s.order, s.clients, conn).value;
            var r := Disconnect(s, conn);
            && Valid(r)
            && u !in r.clients && u !in r.order && u !in r.matchQueue
            && (forall m :: m in r.battles ==> !Involves(r.battles[m], u))
            && (forall m :: m in s.battles && !Involves(s.battles[m], u) ==> m in r.battles && r.battles[m] == s.battles[m])
            && r.clients.Keys == s.clients.Keys - {u}
  {
    var u := FindByConn(s.order, s.clients, conn).value;
    var left := Removed(s, u);
    RemovedConsistent(s, u);
    SettledConsistent(left, u);
    var settled := SettleFrom(left, u, 0);
    var r := Broadcast(settled);
    assert Disconnect(s, conn) == r;
    assert Consistent(r);
    forall m | m in r.battles
      ensures !Involves(r.battles[m], u)
    {
      assert m in left.battles && 0 <= m < left.nextMatch;
    }
  }

  /** The socket's own message handling (handleMessage, plus the parse-error reply of the
      message callback). */
  function Handle(s: Server, conn: ConnId, msg: Inbound, now: int): Server
  {
    match msg
    case Join(p) => Join(s, conn, p)
    case Search(p) => Search(s, p)
    case Action(p) => Act(s, p)
    case Heartbeat => s.(outbox := s.outbox + [Sent(conn, HeartbeatReply(now))])
    case Unhandled(t) => s.(outbox := s.outbox + [Sent(conn, Error("UNKNOWN_TYPE", "Unknown message type: " + t))])
    case Malformed => s.(outbox := s.outbox + [Sent(conn, Error("PARSE_ERROR", "Failed to parse message"))])
  }

  /** A message of a type the server does not handle, PLAYER_LEAVE among them, only
      earns its sender one UNKNOWN_TYPE error. */
  lemma UnhandledTypeOnlyErrors(s: Server, conn: ConnId, t: string, now: int)
    ensures var r := Handle(s, conn, Unhandled(t), now);
            && r.(outbox := s.outbox) == s
            && |r.outbox| == |s.outbox| + 1
            && r.outbox[|s.outbox|].conn == conn
            && r.outbox[|s.outbox|].msg.Error? && r.outbox[|s.outbox|].msg.code == "UNKNOWN_TYPE"
    ensures Handle(s, conn, Unhandled(TypeName(PLAYER_LEAVE)), now).clients == s.clients
  {
  }

  /** A new socket joins the open connections. */
  function Connect(s: Server, conn: ConnId): Server
  {
    s.(sockets := s.sockets + [conn])
  }

  /** A socket closes: it leaves the open connections, then handleDisconnect runs. */
  function Close(s: Server, conn: ConnId): Server
  {
    Disconnect(s.(sockets := Without(s.sockets, conn)), conn)
  }

  /** Every message keeps the invariant. */
  lemma HandleKeepsValid(s: Server, conn: ConnId, msg: Inbound, now: int)
    requires Valid(s)
    ensures Valid(Handle(s, conn, msg, now))
  {
    match msg {
      case Join(p) => JoinRegistersIdle(s, conn, p);
      case Search(p) =>
        if p.userId in s.clients {
          var searching := s.(clients := s.clients[p.userId := s.clients[p.userId].(status := Searching)],
                              matchQueue := s.matchQueue + [p.userId]);
          assert Consistent(searching);
          PairAllKeepsConsistent(searching);
        }
      case Action(p) =>
        if p.matchId in s.battles {
          if Hit(s.battles[p.matchId], p).player1Hp <= 0 || Hit(s.battles[p.matchId], p).player2Hp <= 0 {
            ActionEndsBattle(s, p);
          } else {
            ActionHitsTarget(s, p);
          }
        }
      case Heartbeat =>
      case Unhandled(_) =>
      case Malformed =>
    }
  }

  /** Opening and closing sockets keep the invariant. */
  lemma SocketEventsKeepValid(s: Server, conn: ConnId)
    requires Valid(s)
    ensures Valid(Connect(s, conn)) && Valid(Close(s, conn))
  {
    var closed := s.(sockets := Without(s.sockets, conn));
    if FindByConn(closed.order, closed.clients, conn).Some? {
      DisconnectRemovesPlayer(closed, conn);
    }
  }
}
