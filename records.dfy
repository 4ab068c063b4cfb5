/**
  The persistent records of the escrow backend (the Transaction, Handoff, User
  and location-history tables) and the in-memory store that stands for the
  database. Every route handler reads and updates this store; the backend's
  relational include joins become map lookups.
 */
module Records {

  datatype Option<+T> = None | Some(value: T)

  /** A handler's answer: a value, or the error it responds with. */
  datatype Result<+T, +E> = Ok(value: T) | Err(error: E)

  type UserId = string
  type TxId = nat
  type HandoffId = nat

  /** A request or record field that JavaScript treats as truthy: present and not the empty string. */
  predicate Present(s: Option<string>) {
    s.Some? && s.value != ""
  }

  /** Milliseconds a handoff stays open after creation (24 hours). */
  const HandoffTtl: int := 24 * 60 * 60 * 1000

  datatype Status = Pending | Authorized | Completed | Cancelled | Expired

  /** The two states in which a transaction still accepts confirmation and expiry. */
  predicate IsOpen(s: Status) {
    s == Pending || s == Authorized
  }

  /** One escrow agreement; `amount` is in minor currency units (cents). */
  datatype Transaction = Transaction(
    buyerId: UserId,
    sellerId: UserId,
    amount: int,
    currency: string,
    status: Status,
    paymentIntentId: Option<string>,
    connectAccountId: Option<string>,
    createdAt: int)

  predicate IsParty(t: Transaction, user: UserId) {
    t.buyerId == user || t.sellerId == user
  }

  /** Whether a transaction carries both gateway references (both truthy). */
  predicate HasGatewayRefs(t: Transaction) {
    Present(t.paymentIntentId) && Present(t.connectAccountId)
  }

  /** The refusals of the read handlers: an unknown id, and a caller who is not a party. */
  datatype ReadError = NotFound | Forbidden

  function ReadErrorStatus(e: ReadError): int {
    match e
    case NotFound => 404
    case Forbidden => 403
  }

  /** The QR payload, the JSON object `{transactionId, confirmationCode}`, kept as a record. */
  datatype QrPayload = QrPayload(transactionId: TxId, confirmationCode: string)

  /** One physical meeting, linked to exactly one transaction. */
  datatype Handoff = Handoff(
    transactionId: TxId,
    confirmationCode: string,
    qrCodeData: QrPayload,
    dropPinLat: real,
    dropPinLng: real,
    buyerConfirmed: bool,
    sellerConfirmed: bool,
    confirmedAt: Option<int>,
    expiresAt: int)

  predicate BothConfirmed(h: Handoff) {
    h.buyerConfirmed && h.sellerConfirmed
  }

  datatype User = User(email: string, connectAccountId: Option<string>)

  datatype LocationRecord = LocationRecord(handoffId: HandoffId, userId: UserId, latitude: real, longitude: real)

  /** Coordinate bounds applied by the location service before anything is stored. */
  predicate ValidCoordinates(lat: real, lng: real) {
    -90.0 <= lat <= 90.0 && -180.0 <= lng <= 180.0
  }

  /** A value of the whole database; `nextId` is the next identifier the database will hand out. */
  datatype Db = Db(
    txs: map<TxId, Transaction>,
    handoffs: map<HandoffId, Handoff>,
    users: map<UserId, User>,
    locations: seq<LocationRecord>,
    nextId: nat)

  /** Two distinct handoffs of `hs` belong to distinct transactions. */
  ghost predicate SeparateLinks(hs: map<HandoffId, Handoff>, h1: HandoffId, h2: HandoffId) {
    h1 in hs && h2 in hs && h1 != h2 ==> hs[h1].transactionId != hs[h2].transactionId
  }

  /** Two distinct transactions of `txs` never share a payment-intent id. */
  ghost predicate SeparateIntents(txs: map<TxId, Transaction>, t1: TxId, t2: TxId) {
    t1 in txs && t2 in txs && t1 != t2 && txs[t1].paymentIntentId.Some? ==>
      txs[t1].paymentIntentId != txs[t2].paymentIntentId
  }

  /**
    The invariant every handler keeps: identifiers below `nextId`, every
    handoff linked to an existing transaction and carrying the QR payload of
    its transaction and code, at most one handoff per transaction, and
    payment-intent ids unique among transactions. The handlers establish the
    first three themselves (the creation writes the payload from the new
    ids); the last two are what the lookups by intent id and by transaction
    rely on.
   */
  ghost predicate WellFormed(db: Db) {
    && (forall t :: t in db.txs ==> t < db.nextId)
    && (forall h :: h in db.handoffs ==> h < db.nextId && db.handoffs[h].transactionId in db.txs)
    && (forall h :: h in db.handoffs ==>
          db.handoffs[h].qrCodeData == QrPayload(db.handoffs[h].transactionId, db.handoffs[h].confirmationCode))
    && (forall h1, h2 :: SeparateLinks(db.handoffs, h1, h2))
    && (forall t1, t2 :: SeparateIntents(db.txs, t1, t2))
  }

  /** Rewriting handoff rows without changing their transactions keeps them on distinct transactions. */
  lemma LinksKept(hs: map<HandoffId, Handoff>, hs': map<HandoffId, Handoff>)
    requires forall k :: k in hs' ==> k in hs && hs'[k].transactionId == hs[k].transactionId
    ensures (forall h1, h2 :: SeparateLinks(hs, h1, h2)) ==> (forall h1, h2 :: SeparateLinks(hs', h1, h2))
  {
    if forall h1, h2 :: SeparateLinks(hs, h1, h2) {
      forall h1, h2 ensures SeparateLinks(hs', h1, h2) {
        assert SeparateLinks(hs, h1, h2);
      }
    }
  }

  /** Rewriting transactions without changing their payment-intent ids keeps those ids unique. */
  lemma IntentsKept(txs: map<TxId, Transaction>, txs': map<TxId, Transaction>)
    requires forall k :: k in txs' ==> k in txs && txs'[k].paymentIntentId == txs[k].paymentIntentId
    ensures (forall t1, t2 :: SeparateIntents(txs, t1, t2)) ==> (forall t1, t2 :: SeparateIntents(txs', t1, t2))
  {
    if forall t1, t2 :: SeparateIntents(txs, t1, t2) {
      forall t1, t2 ensures SeparateIntents(txs', t1, t2) {
        assert SeparateIntents(txs, t1, t2);
      }
    }
  }

  /** The transaction a handoff belongs to. */
  function TxOf(db: Db, h: HandoffId): Transaction
    requires h in db.handoffs && db.handoffs[h].transactionId in db.txs
  {
    db.txs[db.handoffs[h].transactionId]
  }

  /** In a well-formed database a payment-intent id names at most one transaction. */
  lemma IntentOwnedOnce(db: Db, t: TxId)
    requires WellFormed(db) && t in db.txs && db.txs[t].paymentIntentId.Some?
    ensures forall t' :: t' in db.txs && db.txs[t'].paymentIntentId == db.txs[t].paymentIntentId ==> t' == t
  {
    forall t' | t' in db.txs && db.txs[t'].paymentIntentId == db.txs[t].paymentIntentId
      ensures t' == t
    {
      assert SeparateIntents(db.txs, t, t');
    }
  }

  /** Whether some transaction already carries the payment-intent id `intent`. */
  predicate IntentInUse(db: Db, intent: string) {
    exists t :: t in db.txs && db.txs[t].paymentIntentId == Some(intent)
  }

  /** The handoff row created alongside transaction `t`: no confirmations yet. */
  function NewHandoff(t: TxId, code: string, lat: real, lng: real, expiresAt: int): Handoff {
    Handoff(t, code, QrPayload(t, code), lat, lng, false, false, None, expiresAt)
  }

  /** The database after the atomic creation of transaction `tx` and its handoff. */
  function Inserted(db: Db, tx: Transaction, code: string, lat: real, lng: real, expiresAt: int): (r: Db)
    requires WellFormed(db)
    requires tx.paymentIntentId.Some? && !IntentInUse(db, tx.paymentIntentId.value)
    ensures WellFormed(r)
    ensures db.nextId !in db.txs && db.nextId + 1 !in db.handoffs
  {
    var h := NewHandoff(db.nextId, code, lat, lng, expiresAt);
    InsertedKeepsSeparation(db, tx, h, db.txs[db.nextId := tx], db.handoffs[db.nextId + 1 := h]);
    db.(txs := db.txs[db.nextId := tx], handoffs := db.handoffs[db.nextId + 1 := h], nextId := db.nextId + 2)
  }

  /** A fresh transaction with an unused intent, and a handoff linked to it, keep both uniqueness constraints. */
  lemma InsertedKeepsSeparation(db: Db, tx: Transaction, h: Handoff, txs': map<TxId, Transaction>, hs': map<HandoffId, Handoff>)
    requires WellFormed(db)
    requires tx.paymentIntentId.Some? && !IntentInUse(db, tx.paymentIntentId.value)
    requires h.transactionId == db.nextId
    requires txs' == db.txs[db.nextId := tx] && hs' == db.handoffs[db.nextId + 1 := h]
    ensures forall h1, h2 :: SeparateLinks(hs', h1, h2)
    ensures forall t1, t2 :: SeparateIntents(txs', t1, t2)
  {
    forall h1, h2 ensures SeparateLinks(hs', h1, h2) {
      assert SeparateLinks(db.handoffs, h1, h2);
    }
    forall t1, t2 ensures SeparateIntents(txs', t1, t2) {
      assert SeparateIntents(db.txs, t1, t2);
    }
  }

  /** The handoff row `h` with the caller's confirmation flag set. */
  function Flagged(h: Handoff, asBuyer: bool): Handoff {
    if asBuyer then h.(buyerConfirmed := true) else h.(sellerConfirmed := true)
  }

  /** The database after handoff `id`'s row is replaced by `h`, a row of the same transaction, code and payload. */
  function WithHandoff(db: Db, id: HandoffId, h: Handoff): (r: Db)
    requires id in db.handoffs
    requires h.transactionId == db.handoffs[id].transactionId
    requires h.confirmationCode == db.handoffs[id].confirmationCode && h.qrCodeData == db.handoffs[id].qrCodeData
    ensures WellFormed(db) ==> WellFormed(r)
  {
    LinksKept(db.handoffs, db.handoffs[id := h]);
    db.(handoffs := db.handoffs[id := h])
  }

  /** The database after `tx`'s status is overwritten with `s`. */
  function WithStatus(db: Db, t: TxId, s: Status): (r: Db)
    requires t in db.txs
    ensures WellFormed(db) ==> WellFormed(r)
  {
    IntentsKept(db.txs, db.txs[t := db.txs[t].(status := s)]);
    db.(txs := db.txs[t := db.txs[t].(status := s)])
  }

  /**
    The database. Each method is one query or update the route handlers issue;
    the ones that may fail in a way the handlers react to return `ok`.
   */
  class Store {
    var txs: map<TxId, Transaction>
    var handoffs: map<HandoffId, Handoff>
    var users: map<UserId, User>
    var locations: seq<LocationRecord>
    var nextId: nat

    function Snapshot(): Db
      reads this
    {
      Db(txs, handoffs, users, locations, nextId)
    }

    ghost predicate Valid()
      reads this
    {
      WellFormed(Snapshot())
    }

    constructor (users: map<UserId, User>)
      ensures Valid()
      ensures Snapshot() == Db(map[], map[], users, [], 0)
    {
      this.txs := map[];
      this.handoffs := map[];
      this.users := users;
      this.locations := [];
      this.nextId := 0;
    }

    /** `prisma.transaction.update({data: {status}})`. */
    method SetStatus(t: TxId, s: Status)
      requires t in txs
      modifies this
      ensures Snapshot() == WithStatus(old(Snapshot()), t, s)
    {
      txs := txs[t := txs[t].(status := s)];
    }

    /** A status update inside a handler that catches and logs its own failures. */
    method TrySetStatus(t: TxId, s: Status) returns (ok: bool)
      requires t in txs
      modifies this
      ensures Snapshot() == if ok then WithStatus(old(Snapshot()), t, s) else old(Snapshot())
    {
      ok := *;
      if ok {
        txs := txs[t := txs[t].(status := s)];
      }
    }

    /** `prisma.handoff.update` setting the caller's confirmation flag. */
    method SetConfirmed(h: HandoffId, asBuyer: bool)
      requires h in handoffs
      modifies this
      ensures Snapshot() == old(Snapshot()).(handoffs := old(handoffs)[h :=
        if asBuyer then old(handoffs[h]).(buyerConfirmed := true) else old(handoffs[h]).(sellerConfirmed := true)])
    {
      var row := handoffs[h];
      handoffs := handoffs[h := if asBuyer then row.(buyerConfirmed := true) else row.(sellerConfirmed := true)];
    }

    /** `prisma.handoff.update({data: {confirmedAt}})`. */
    method SetConfirmedAt(h: HandoffId, at: int)
      requires h in handoffs
      modifies this
      ensures Snapshot() == old(Snapshot()).(handoffs := old(handoffs)[h := old(handoffs[h]).(confirmedAt := Some(at))])
    {
      handoffs := handoffs[h := handoffs[h].(confirmedAt := Some(at))];
    }

    /** `prisma.user.update` storing a connect-account id. */
    method SetConnectAccount(u: UserId, account: string)
      requires u in users
      modifies this
      ensures Snapshot() == old(Snapshot()).(users := old(users)[u := old(users[u]).(connectAccountId := Some(account))])
    {
      users := users[u := users[u].(connectAccountId := Some(account))];
    }

    /**
      The database transaction that creates a Transaction and its Handoff as
      one unit. It can fail for reasons outside the model, and it always fails
      when the payment-intent id is already taken (a unique column); on failure
      nothing is stored.
     */
    method CreateWithHandoff(tx: Transaction, code: string, lat: real, lng: real, expiresAt: int)
      returns (ok: bool, t: TxId, h: HandoffId)
      requires Valid()
      requires tx.paymentIntentId.Some?
      modifies this
      ensures Valid()
      ensures ok ==> !IntentInUse(old(Snapshot()), tx.paymentIntentId.value)
      ensures ok ==> t == old(nextId) && h == old(nextId) + 1
      ensures Snapshot() == if ok then Inserted(old(Snapshot()), tx, code, lat, lng, expiresAt) else old(Snapshot())
    {
      ok := *;
      t, h := nextId, nextId + 1;
      if IntentInUse(Snapshot(), tx.paymentIntentId.value) {
        ok := false;
      }
      if ok {
        var db := Inserted(Snapshot(), tx, code, lat, lng, expiresAt);
        txs, handoffs, nextId := db.txs, db.handoffs, db.nextId;
      }
    }

    /** The location service's `storeLocationUpdate`, which may fail. */
    method TryStoreLocation(r: LocationRecord) returns (ok: bool)
      modifies this
      ensures Snapshot() == old(Snapshot()).(locations := old(locations) + if ok then [r] else [])
    {
      ok := *;
      if ok {
        locations := locations + [r];
      }
    }
  }
}
