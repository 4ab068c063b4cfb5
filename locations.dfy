/**
  POST /api/locations, the REST fallback of the socket location update: the
  same guards for an already authenticated caller, then one location record
  stored and returned.
 */
module Locations {
  import opened Records
  import SocketHandlers

  datatype LocationError =
    | MissingFields
    | InvalidCoordinates
    | HandoffNotFound
    | NotAParty
    | StoreFailed   // the history write threw; the handler answers 500

  function LocationErrorStatus(e: LocationError): int {
    match e
    case MissingFields => 400
    case InvalidCoordinates => 400
    case HandoffNotFound => 404
    case NotAParty => 403
    case StoreFailed => 500
  }

  /**
    The guards of the route, in order: all three fields, coordinates within
    bounds, an existing handoff, and a caller who is a party to it. `None`
    means every guard passed.
   */
  function PostCheck(db: Db, user: UserId, handoff: Option<HandoffId>, lat: Option<real>, lng: Option<real>)
    : (r: Option<LocationError>)
    requires WellFormed(db)
    ensures handoff.None? || lat.None? || lng.None? ==> r == Some(MissingFields)
    ensures handoff.Some? && lat.Some? && lng.Some? && !ValidCoordinates(lat.value, lng.value) ==>
      r == Some(InvalidCoordinates)
    ensures r.None? <==>
      && handoff.Some? && lat.Some? && lng.Some? && ValidCoordinates(lat.value, lng.value)
      && handoff.value in db.handoffs && IsParty(TxOf(db, handoff.value), user)
    ensures r.Some? ==> r.value != StoreFailed
    ensures r.Some? ==>
      LocationErrorStatus(r.value) ==
        (if handoff.None? || lat.None? || lng.None? || !ValidCoordinates(lat.value, lng.value) then 400
         else if handoff.value !in db.handoffs then 404 else 403)
  {
    if handoff.None? || lat.None? || lng.None? then Some(MissingFields)
    else if !ValidCoordinates(lat.value, lng.value) then Some(InvalidCoordinates)
    else if handoff.value !in db.handoffs then Some(HandoffNotFound)
    else if !IsParty(TxOf(db, handoff.value), user) then Some(NotAParty)
    else None
  }

  /** The socket error that corresponds to a route error. */
  function AsRelayError(e: LocationError): SocketHandlers.RelayError
    requires e != StoreFailed
  {
    match e
    case MissingFields => SocketHandlers.MissingFields
    case InvalidCoordinates => SocketHandlers.InvalidCoordinates
    case HandoffNotFound => SocketHandlers.HandoffNotFound
    case NotAParty => SocketHandlers.NotAParty
  }

  /**
    For an authenticated caller the route and the socket event refuse the
    same requests, with the corresponding error, and accept the same ones.
   */
  lemma RouteMatchesSocket(db: Db, user: UserId, handoff: Option<HandoffId>, lat: Option<real>, lng: Option<real>)
    requires WellFormed(db) && user != ""
    ensures var r := PostCheck(db, user, handoff, lat, lng);
      var c := SocketHandlers.LocationCheck(db, handoff, lat, lng, Some(user));
      && (r.None? <==> c.Ok?)
      && (r.Some? ==> c == Err(AsRelayError(r.value)))
  {
  }

  /**
    The route against the store. `user` is the id the authentication
    middleware attached to the request.
   */
  method PostLocation(db: Store, user: UserId, handoff: Option<HandoffId>, lat: Option<real>, lng: Option<real>)
    returns (r: Result<LocationRecord, LocationError>)
    requires db.Valid()
    modifies db
    ensures var c := PostCheck(old(db.Snapshot()), user, handoff, lat, lng);
      && (c.Some? ==> r == Err(c.value) && db.Snapshot() == old(db.Snapshot()))
      && (c.None? && r.Err? ==> r.error == StoreFailed && db.Snapshot() == old(db.Snapshot()))
      && (c.None? && r.Ok? ==>
            && r.value == LocationRecord(handoff.value, user, lat.value, lng.value)
            && db.Snapshot() == old(db.Snapshot()).(locations := old(db.locations) + [r.value]))
    // a 500 comes only from the history write, past every guard
    ensures r.Err? ==> (LocationErrorStatus(r.error) == 500 <==> PostCheck(old(db.Snapshot()), user, handoff, lat, lng).None?)
    ensures db.Valid()
  {
    var c := PostCheck(db.Snapshot(), user, handoff, lat, lng);
    if c.Some? {
      return Err(c.value);
    }
    var record := LocationRecord(handoff.value, user, lat.value, lng.value);
    var ok := db.TryStoreLocation(record);
    if !ok {
      return Err(StoreFailed);
    }
    r := Ok(record);
  }
}
