/**
  The real-time location relay: sockets join the room of a handoff they are
  a party to, publish their position to the other members of that room, and
  relay confirmation notices. The relay reads the database but never writes
  a transaction or a handoff; its only write is the optional location
  history.
 */
module SocketHandlers {
  import opened Records

  type SocketId = string

  datatype Role = Buyer | Seller

  /** The role reported for `user`: buyer when the user is the transaction's buyer, otherwise seller. */
  function RoleOf(t: Transaction, user: UserId): Role {
    if t.buyerId == user then Buyer else Seller
  }

  /** The refusals the relay emits as an `error` event to the requesting socket. */
  datatype RelayError =
    | HandoffIdRequired
    | AuthRequired
    | HandoffNotFound
    | NotAParty
    | MissingFields
    | InvalidCoordinates

  /** The events the relay emits; timestamps are not modelled. */
  datatype Message =
    | ErrorMsg(error: RelayError)
    | UserJoined(userId: UserId, role: Role)
    | JoinedHandoff(handoffId: HandoffId)
    | LeftHandoff(left: Option<HandoffId>)
    | LocationMsg(userId: UserId, latitude: real, longitude: real, role: Role)
    | LocationSent(handoffId: HandoffId, latitude: real, longitude: real)
    | ConfirmedNotice(handoff: Option<HandoffId>, claimedUser: Option<UserId>)

  /** One emitted event and the sockets it reaches. */
  datatype Delivery = Delivery(recipients: set<SocketId>, message: Message)

  /**
    The guards of `join-handoff`, in order: a handoff id, an authenticated
    caller, an existing handoff, and a caller who is its buyer or seller.
   */
  function JoinCheck(db: Db, handoff: Option<HandoffId>, user: Option<UserId>): (r: Result<Role, RelayError>)
    requires WellFormed(db)
    ensures handoff.None? ==> r == Err(HandoffIdRequired)
    ensures handoff.Some? && !Present(user) ==> r == Err(AuthRequired)
    ensures handoff.Some? && Present(user) && handoff.value !in db.handoffs ==> r == Err(HandoffNotFound)
    ensures r.Ok? <==>
      handoff.Some? && Present(user) && handoff.value in db.handoffs && IsParty(TxOf(db, handoff.value), user.value)
    ensures r.Ok? ==> (r.value == Buyer <==> TxOf(db, handoff.value).buyerId == user.value)
    ensures r.Err? && handoff.Some? && Present(user) && handoff.value in db.handoffs ==> r == Err(NotAParty)
  {
    if handoff.None? then Err(HandoffIdRequired)
    else if !Present(user) then Err(AuthRequired)
    else if handoff.value !in db.handoffs then Err(HandoffNotFound)
    else
      var t := TxOf(db, handoff.value);
      if !IsParty(t, user.value) then Err(NotAParty) else Ok(RoleOf(t, user.value))
  }

  /**
    The guards of `location-update`, in order: all three fields, an
    authenticated caller, coordinates within bounds, an existing handoff,
    and a caller who is a party to it.
   */
  function LocationCheck(db: Db, handoff: Option<HandoffId>, lat: Option<real>, lng: Option<real>, user: Option<UserId>)
    : (r: Result<Role, RelayError>)
    requires WellFormed(db)
    ensures handoff.None? || lat.None? || lng.None? ==> r == Err(MissingFields)
    ensures handoff.Some? && lat.Some? && lng.Some? && !Present(user) ==> r == Err(AuthRequired)
    ensures handoff.Some? && lat.Some? && lng.Some? && Present(user) && !ValidCoordinates(lat.value, lng.value) ==>
      r == Err(InvalidCoordinates)
    ensures r.Ok? <==>
      && handoff.Some? && lat.Some? && lng.Some? && Present(user)
      && ValidCoordinates(lat.value, lng.value)
      && handoff.value in db.handoffs && IsParty(TxOf(db, handoff.value), user.value)
    ensures r.Ok? ==> (r.value == Buyer <==> TxOf(db, handoff.value).buyerId == user.value)
  {
    if handoff.None? || lat.None? || lng.None? then Err(MissingFields)
    else if !Present(user) then Err(AuthRequired)
    else if !ValidCoordinates(lat.value, lng.value) then Err(InvalidCoordinates)
    else if handoff.value !in db.handoffs then Err(HandoffNotFound)
    else
      var t := TxOf(db, handoff.value);
      if !IsParty(t, user.value) then Err(NotAParty) else Ok(RoleOf(t, user.value))
  }

  /**
    Whoever may join a handoff's room may publish a valid position to it,
    with the same role, and an update that passes its own field and
    coordinate checks fails exactly where the join would.
   */
  lemma PublishIffJoin(db: Db, h: HandoffId, lat: real, lng: real, user: Option<UserId>)
    requires WellFormed(db) && ValidCoordinates(lat, lng)
    ensures LocationCheck(db, Some(h), Some(lat), Some(lng), user) == JoinCheck(db, Some(h), user)
  {
  }

  /** The socket server: connections, their `socket.data`, room membership and every event emitted. */
  class Relay {
    var connected: set<SocketId>
    var users: map<SocketId, UserId>       // socket.data.userId
    var joined: map<SocketId, HandoffId>   // socket.data.handoffId, the last room joined
    var rooms: map<HandoffId, set<SocketId>>
    var outbox: seq<Delivery>

    /** The sockets in room `handoff:<h>`. */
    function Members(h: HandoffId): set<SocketId>
      reads this
    {
      if h in rooms then rooms[h] else {}
    }

    /** `socket.data.userId` of socket `s`, if the connection was authenticated. */
    function Caller(s: SocketId): Option<UserId>
      reads this
    {
      if s in users then Some(users[s]) else None
    }

    /**
      The relay's invariant against the database `db`: every socket it knows
      is connected, and every room member is an authenticated party to the
      transaction of that room's handoff.
     */
    ghost predicate Guarded(db: Db)
      reads this
    {
      && users.Keys <= connected
      && joined.Keys <= connected
      && forall h, s :: h in rooms && s in rooms[h] ==>
           && s in users && Present(Some(users[s]))
           && h in db.handoffs && db.handoffs[h].transactionId in db.txs
           && IsParty(TxOf(db, h), users[s])
    }

    constructor ()
      ensures connected == {} && users == map[] && joined == map[] && rooms == map[] && outbox == []
    {
      connected := {};
      users := map[];
      joined := map[];
      rooms := map[];
      outbox := [];
    }

    /**
      A new connection. `verified` is the user id of the handshake token when
      one was sent and verified; otherwise the socket connects unauthenticated.
     */
    method Connect(s: SocketId, verified: Option<UserId>)
      requires s !in connected
      modifies this
      ensures connected == old(connected) + {s}
      ensures users == if verified.Some? then old(users)[s := verified.value] else old(users)
      ensures joined == old(joined) && rooms == old(rooms) && outbox == old(outbox)
      ensures forall db :: old(Guarded(db)) ==> Guarded(db)
    {
      connected := connected + {s};
      if verified.Some? {
        users := users[s := verified.value];
      }
      forall db | old(Guarded(db)) ensures Guarded(db) {
        // a fresh socket is in no room yet
        assert forall h, r :: h in rooms && r in rooms[h] ==> r in old(users) && r != s;
      }
    }

    /** `join-handoff`: on success the socket enters the room and the other members are told. */
    method JoinHandoff(db: Db, s: SocketId, handoff: Option<HandoffId>)
      requires WellFormed(db) && s in connected
      modifies this
      ensures connected == old(connected) && users == old(users)
      ensures var c := JoinCheck(db, handoff, old(Caller(s)));
        && (c.Err? ==>
              && rooms == old(rooms) && joined == old(joined)
              && outbox == old(outbox) + [Delivery({s}, ErrorMsg(c.error))])
        && (c.Ok? ==>
              && rooms == old(rooms)[handoff.value := old(Members(handoff.value)) + {s}]
              && joined == old(joined)[s := handoff.value]
              // the joiner is never among those told that it joined
              && outbox == old(outbox) + [
                   Delivery(old(Members(handoff.value)) - {s}, UserJoined(users[s], c.value)),
                   Delivery({s}, JoinedHandoff(handoff.value))])
      ensures old(Guarded(db)) ==> Guarded(db)
    {
      var c := JoinCheck(db, handoff, Caller(s));
      if c.Err? {
        outbox := outbox + [Delivery({s}, ErrorMsg(c.error))];
        return;
      }
      var h := handoff.value;
      var others := Members(h) - {s};
      rooms := rooms[h := Members(h) + {s}];
      joined := joined[s := h];
      outbox := outbox + [Delivery(others, UserJoined(users[s], c.value)), Delivery({s}, JoinedHandoff(h))];
    }

    /** `leave-handoff`: no check at all; the socket leaves the room, and `socket.data.handoffId` is kept. */
    method LeaveHandoff(s: SocketId, handoff: Option<HandoffId>)
      modifies this
      ensures connected == old(connected) && users == old(users) && joined == old(joined)
      ensures handoff.Some? && handoff.value in old(rooms) ==>
        rooms == old(rooms)[handoff.value := old(rooms)[handoff.value] - {s}]
      ensures handoff.None? || handoff.value !in old(rooms) ==> rooms == old(rooms)
      ensures outbox == old(outbox) + [Delivery({s}, LeftHandoff(handoff))]
      ensures forall db :: old(Guarded(db)) ==> Guarded(db)
    {
      if handoff.Some? && handoff.value in rooms {
        rooms := rooms[handoff.value := rooms[handoff.value] - {s}];
      }
      outbox := outbox + [Delivery({s}, LeftHandoff(handoff))];
    }

    /**
      `location-update`: after the guards pass, the position is offered to
      the location history (a failed write is swallowed), sent to the other
      members of the room, and acknowledged to the sender alone. `stored`
      is whether the history write succeeded.
     */
    method LocationUpdate(db: Store, s: SocketId, handoff: Option<HandoffId>, lat: Option<real>, lng: Option<real>)
      returns (ghost stored: bool)
      requires db.Valid() && s in connected
      modifies this, db
      ensures connected == old(connected) && users == old(users) && joined == old(joined) && rooms == old(rooms)
      ensures db.txs == old(db.txs) && db.handoffs == old(db.handoffs)
      ensures var c := LocationCheck(old(db.Snapshot()), handoff, lat, lng, old(Caller(s)));
        && (c.Err? ==>
              && db.Snapshot() == old(db.Snapshot())
              && outbox == old(outbox) + [Delivery({s}, ErrorMsg(c.error))])
        && (c.Ok? ==>
              && db.Snapshot() == old(db.Snapshot()).(locations := old(db.locations) +
                   if stored then [LocationRecord(handoff.value, users[s], lat.value, lng.value)] else [])
              && outbox == old(outbox) + [
                   Delivery(Members(handoff.value) - {s}, LocationMsg(users[s], lat.value, lng.value, c.value)),
                   Delivery({s}, LocationSent(handoff.value, lat.value, lng.value))])
      // a position only ever reaches the other authenticated parties of that handoff
      ensures Guarded(db.Snapshot()) && |outbox| == |old(outbox)| + 2 ==>
        forall r :: r in outbox[|old(outbox)|].recipients ==>
          r != s && r in users && handoff.Some? && IsParty(TxOf(db.Snapshot(), handoff.value), users[r])
      ensures old(Guarded(db.Snapshot())) ==> Guarded(db.Snapshot())
      ensures db.Valid()
    {
      stored := false;
      var c := LocationCheck(db.Snapshot(), handoff, lat, lng, Caller(s));
      if c.Err? {
        outbox := outbox + [Delivery({s}, ErrorMsg(c.error))];
        return;
      }
      var h, u := handoff.value, users[s];
      stored := db.TryStoreLocation(LocationRecord(h, u, lat.value, lng.value));
      outbox := outbox + [
        Delivery(Members(h) - {s}, LocationMsg(u, lat.value, lng.value, c.value)),
        Delivery({s}, LocationSent(h, lat.value, lng.value))];
    }

    /**
      `handoff-confirmed`: the payload is passed on, unchecked, to the other
      members of the named room, whoever sends it.
     */
    method RelayHandoffConfirmed(s: SocketId, handoff: Option<HandoffId>, claimedUser: Option<UserId>)
      modifies this
      ensures connected == old(connected) && users == old(users) && joined == old(joined) && rooms == old(rooms)
      ensures outbox == old(outbox) + [Delivery(
        (if handoff.Some? then Members(handoff.value) else {}) - {s}, ConfirmedNotice(handoff, claimedUser))]
      ensures forall db :: old(Guarded(db)) ==> Guarded(db)
    {
      var to := if handoff.Some? then Members(handoff.value) else {};
      outbox := outbox + [Delivery(to - {s}, ConfirmedNotice(handoff, claimedUser))];
    }
  }
}
