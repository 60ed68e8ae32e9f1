/** Friendships and battle invitations between friends (server/friendDb.ts). A
    friendship row is directed, from userId to friendId. Each statement of the source
    is a function from the old table to the new one; the methods apply them to the
    database. `now` is the caller's clock in milliseconds. */
module FriendDb {
  import opened Wrappers
  import opened Schema

  const AlreadyLinkedMessage: string := "Already friends or request pending"

  /** Some row joins the two users, in either direction and with any status. */
  predicate Linked(rows: seq<Friendship>, a: int, b: int)
  {
    exists i :: 0 <= i < |rows| && ((rows[i].userId == a && rows[i].friendId == b)
                                  || (rows[i].userId == b && rows[i].friendId == a))
  }

  /** isFriend: an accepted row from userId to friendId exists. */
  predicate IsFriend(rows: seq<Friendship>, userId: int, friendId: int)
  {
    Friendship(userId, friendId, FriendAccepted) in rows
  }

  /** addFriend: refused when the users are already linked, otherwise one pending row
      from userId to friendId is appended. */
  function AddFriendRows(rows: seq<Friendship>, userId: int, friendId: int): (r: Result<seq<Friendship>>)
    ensures r.Err? <==> Linked(rows, userId, friendId)
    ensures r.Err? ==> r.message == AlreadyLinkedMessage
    ensures r.Ok? ==> r.value == rows + [Friendship(userId, friendId, FriendPending)]
  {
    if Linked(rows, userId, friendId) then Err(AlreadyLinkedMessage)
    else Ok(rows + [Friendship(userId, friendId, FriendPending)])
  }

  /** A pending row from `from` to `to`. */
  predicate IsPendingFrom(row: Friendship, from: int, to: int)
  {
    row.userId == from && row.friendId == to && row.status == FriendPending
  }

  /** The update of acceptFriend: pending rows from friendId to userId become accepted. */
  function AcceptPending(rows: seq<Friendship>, userId: int, friendId: int): (r: seq<Friendship>)
    ensures |r| == |rows|
    ensures forall i :: 0 <= i < |rows| ==>
              r[i] == if IsPendingFrom(rows[i], friendId, userId) then rows[i].(status := FriendAccepted) else rows[i]
  {
    if rows == [] then []
    else
      var row := rows[0];
      [if IsPendingFrom(row, friendId, userId) then row.(status := FriendAccepted) else row]
        + AcceptPending(rows[1..], userId, friendId)
  }

  /** acceptFriend: the update, then an accepted row from userId to friendId is always
      inserted, whether or not a request existed. */
  function AcceptFriendRows(rows: seq<Friendship>, userId: int, friendId: int): (r: seq<Friendship>)
    ensures |r| == |rows| + 1 && r[|rows|] == Friendship(userId, friendId, FriendAccepted)
  {
    AcceptPending(rows, userId, friendId) + [Friendship(userId, friendId, FriendAccepted)]
  }

  /** rejectFriend: deletes the pending rows from friendId to userId and nothing else. */
  function RejectFriendRows(rows: seq<Friendship>, userId: int, friendId: int): (r: seq<Friendship>)
    ensures forall x :: x in r <==> x in rows && !IsPendingFrom(x, friendId, userId)
  {
    Filter(rows, (x: Friendship) => !IsPendingFrom(x, friendId, userId))
  }

  /** removeFriend: deletes every row between the two users, in both directions and
      whatever its status. */
  function RemoveFriendRows(rows: seq<Friendship>, userId: int, friendId: int): (r: seq<Friendship>)
    ensures forall x :: x in r <==> x in rows && !((x.userId == userId && x.friendId == friendId)
                                                  || (x.userId == friendId && x.friendId == userId))
    ensures !Linked(r, userId, friendId)
  {
    var r := Filter(rows, (x: Friendship) => !((x.userId == userId && x.friendId == friendId)
                                             || (x.userId == friendId && x.friendId == userId)));
    assert forall i :: 0 <= i < |r| ==> r[i] in r;
    r
  }

  /** getFriends without its joins: the friendIds of the accepted rows of userId. */
  function FriendIds(rows: seq<Friendship>, userId: int): (ids: seq<int>)
    ensures forall f :: f in ids <==> IsFriend(rows, userId, f)
  {
    if rows == [] then []
    else
      assert forall x :: x in rows <==> x == rows[0] || x in rows[1..];
      (if rows[0].userId == userId && rows[0].status == FriendAccepted then [rows[0].friendId] else [])
        + FriendIds(rows[1..], userId)
  }

  /** getPendingFriendRequests without its joins: the rows pending towards userId. */
  function PendingRequests(rows: seq<Friendship>, userId: int): (r: seq<Friendship>)
    ensures forall x :: x in r <==> x in rows && x.friendId == userId && x.status == FriendPending
  {
    Filter(rows, (x: Friendship) => x.friendId == userId && x.status == FriendPending)
  }

  // ---------------------------------------------------------------------------
  // What the friendship statements do to isFriend
  // ---------------------------------------------------------------------------

  /** After acceptFriend, userId counts friendId as a friend; friendId counts userId as
      one exactly when it already did or had a pending request to userId. */
  lemma AcceptMakesFriends(rows: seq<Friendship>, userId: int, friendId: int)
    requires userId != friendId
    ensures IsFriend(AcceptFriendRows(rows, userId, friendId), userId, friendId)
    ensures IsFriend(AcceptFriendRows(rows, userId, friendId), friendId, userId)
            <==> IsFriend(rows, friendId, userId) || Friendship(friendId, userId, FriendPending) in rows
  {
    var r := AcceptFriendRows(rows, userId, friendId);
    var a := AcceptPending(rows, userId, friendId);
    assert r == a + [Friendship(userId, friendId, FriendAccepted)];
    assert r[|rows|] == Friendship(userId, friendId, FriendAccepted);
    var target := Friendship(friendId, userId, FriendAccepted);
    if target in r {
      var i :| 0 <= i < |r| && r[i] == target;
      assert i < |rows|;
      assert a[i] == target;
    }
    if target in rows {
      var i :| 0 <= i < |rows| && rows[i] == target;
      assert r[i] == a[i] == target;
    } else if Friendship(friendId, userId, FriendPending) in rows {
      var i :| 0 <= i < |rows| && rows[i] == Friendship(friendId, userId, FriendPending);
      assert r[i] == a[i] == target;
    }
  }

  /** After removeFriend neither user counts the other as a friend. */
  lemma RemoveEndsFriendship(rows: seq<Friendship>, userId: int, friendId: int)
    ensures !IsFriend(RemoveFriendRows(rows, userId, friendId), userId, friendId)
    ensures !IsFriend(RemoveFriendRows(rows, userId, friendId), friendId, userId)
  {
  }

  /** rejectFriend never touches an accepted row, so isFriend is unchanged by it. */
  lemma RejectKeepsFriendships(rows: seq<Friendship>, userId: int, friendId: int, a: int, b: int)
    ensures IsFriend(RejectFriendRows(rows, userId, friendId), a, b) <==> IsFriend(rows, a, b)
  {
  }

  /** A successful addFriend leaves isFriend unchanged: the new row is only pending. */
  lemma AddKeepsFriendships(rows: seq<Friendship>, userId: int, friendId: int, a: int, b: int)
    requires AddFriendRows(rows, userId, friendId).Ok?
    ensures IsFriend(AddFriendRows(rows, userId, friendId).value, a, b) <==> IsFriend(rows, a, b)
  {
  }

  method AddFriend(db: GameDb, userId: int, friendId: int) returns (r: Result<()>)
    modifies db`friendships
    ensures AddFriendRows(old(db.friendships), userId, friendId).Err? ==>
              r == Err(AlreadyLinkedMessage) && db.friendships == old(db.friendships)
    ensures AddFriendRows(old(db.friendships), userId, friendId).Ok? ==>
              r == Ok(()) && db.friendships == AddFriendRows(old(db.friendships), userId, friendId).value
  {
    var next := AddFriendRows(db.friendships, userId, friendId);
    if next.Err? {
      return Err(next.message);
    }
    db.friendships := next.value;
    r := Ok(());
  }

  method AcceptFriend(db: GameDb, userId: int, friendId: int)
    modifies db`friendships
    ensures db.friendships == AcceptFriendRows(old(db.friendships), userId, friendId)
  {
    db.friendships := AcceptPending(db.friendships, userId, friendId);
    db.friendships := db.friendships + [Friendship(userId, friendId, FriendAccepted)];
  }

  method RejectFriend(db: GameDb, userId: int, friendId: int)
    modifies db`friendships
    ensures db.friendships == RejectFriendRows(old(db.friendships), userId, friendId)
  {
    db.friendships := RejectFriendRows(db.friendships, userId, friendId);
  }

  method RemoveFriend(db: GameDb, userId: int, friendId: int)
    modifies db`friendships
    ensures db.friendships == RemoveFriendRows(old(db.friendships), userId, friendId)
  {
    db.friendships := RemoveFriendRows(db.friendships, userId, friendId);
  }

  // ---------------------------------------------------------------------------
  // Battle invitations
  // ---------------------------------------------------------------------------

  /** sendFriendInvite: appends a pending invite under the next id. */
  method SendFriendInvite(db: GameDb, inviterId: int, inviteeId: int, expiresAt: int) returns (id: int)
    requires db.Valid()
    modifies db`friendInvites, db`nextInviteId
    ensures db.Valid()
    ensures id == old(db.nextInviteId) && db.nextInviteId == id + 1
    ensures db.friendInvites == old(db.friendInvites) + [FriendInvite(id, inviterId, inviteeId, InvitePending, None, expiresAt)]
  {
    id := db.nextInviteId;
    db.friendInvites := db.friendInvites + [FriendInvite(id, inviterId, inviteeId, InvitePending, None, expiresAt)];
    db.nextInviteId := id + 1;
  }

  /** The update of acceptFriendInvite and declineFriendInvite: the invite with that id
      gets the new status and match id; every other row is untouched. */
  function SetInvite(rows: seq<FriendInvite>, inviteId: int, status: InviteStatus, matchId: Option<string>): (r: seq<FriendInvite>)
    ensures |r| == |rows|
    ensures forall i :: 0 <= i < |rows| ==>
              r[i] == if rows[i].id == inviteId then rows[i].(status := status, matchId := matchId) else rows[i]
  {
    if rows == [] then []
    else
      [if rows[0].id == inviteId then rows[0].(status := status, matchId := matchId) else rows[0]]
        + SetInvite(rows[1..], inviteId, status, matchId)
  }

  /** acceptFriendInvite: status accepted and the given match id. */
  method AcceptFriendInvite(db: GameDb, inviteId: int, matchId: string)
    requires db.Valid()
    modifies db`friendInvites
    ensures db.Valid()
    ensures db.friendInvites == SetInvite(old(db.friendInvites), inviteId, InviteAccepted, Some(matchId))
  {
    db.friendInvites := SetInvite(db.friendInvites, inviteId, InviteAccepted, Some(matchId));
  }

  /** declineFriendInvite: status declined; the match id column is not written. */
  method DeclineFriendInvite(db: GameDb, inviteId: int)
    requires db.Valid()
    modifies db`friendInvites
    ensures db.Valid()
    ensures db.friendInvites == DeclineInvite(old(db.friendInvites), inviteId)
  {
    db.friendInvites := DeclineInvite(db.friendInvites, inviteId);
  }

  function DeclineInvite(rows: seq<FriendInvite>, inviteId: int): (r: seq<FriendInvite>)
    ensures |r| == |rows|
    ensures forall i :: 0 <= i < |rows| ==>
              r[i] == if rows[i].id == inviteId then rows[i].(status := InviteDeclined) else rows[i]
  {
    if rows == [] then []
    else
      [if rows[0].id == inviteId then rows[0].(status := InviteDeclined) else rows[0]]
        + DeclineInvite(rows[1..], inviteId)
  }

  /** The invites getPendingInvites reports. */
  predicate IsOpenInvite(x: FriendInvite, userId: int, now: int)
  {
    x.inviteeId == userId && x.status == InvitePending && x.expiresAt > now
  }

  /** getPendingInvites without its joins: pending invites to the user that expire
      strictly after now, in table order. */
  function PendingInvites(rows: seq<FriendInvite>, userId: int, now: int): (r: seq<FriendInvite>)
    ensures forall x :: x in r <==> x in rows && IsOpenInvite(x, userId, now)
  {
    Filter(rows, (x: FriendInvite) => IsOpenInvite(x, userId, now))
  }

  /** An accepted or declined invite is no longer pending for anyone. */
  lemma AnsweredInviteLeavesPending(rows: seq<FriendInvite>, inviteId: int, matchId: string, userId: int, now: int)
    ensures forall x :: x in PendingInvites(SetInvite(rows, inviteId, InviteAccepted, Some(matchId)), userId, now) ==> x.id != inviteId
    ensures forall x :: x in PendingInvites(DeclineInvite(rows, inviteId), userId, now) ==> x.id != inviteId
  {
    var a := SetInvite(rows, inviteId, InviteAccepted, Some(matchId));
    var d := DeclineInvite(rows, inviteId);
    forall x | x in a && x.status == InvitePending
      ensures x.id != inviteId
    {
      var i :| 0 <= i < |a| && a[i] == x;
    }
    forall x | x in d && x.status == InvitePending
      ensures x.id != inviteId
    {
      var i :| 0 <= i < |d| && d[i] == x;
    }
  }
}
