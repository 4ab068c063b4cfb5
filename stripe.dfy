/**
  The payment-gateway routes: the signed webhook that reconciles transaction
  status with payment-intent events, and the creation of a seller's connect
  account.
 */
module StripeRoutes {
  import opened Records
  import opened Gateway

  /** A webhook event whose signature has been verified, reduced to the fields the handlers read. */
  datatype Event =
    | PaymentIntentSucceeded(intentId: string)
    | PaymentIntentFailed(intentId: string)
    | AccountUpdated(accountId: string)
    | OtherEvent(eventType: string)

  /** `findUnique` on the unique intent column: the transaction carrying `intent`, if there is one. */
  ghost function FindByIntent(db: Db, intent: string): (r: Option<TxId>)
    requires WellFormed(db)
    ensures r.Some? <==> IntentInUse(db, intent)
    ensures r.Some? ==> r.value in db.txs && db.txs[r.value].paymentIntentId == Some(intent)
    ensures r.Some? ==> forall t :: t in db.txs && db.txs[t].paymentIntentId == Some(intent) ==> t == r.value
  {
    if IntentInUse(db, intent) then
      var t :| t in db.txs && db.txs[t].paymentIntentId == Some(intent);
      IntentOwnedOnce(db, t);
      Some(t)
    else None
  }

  /**
    `handlePaymentIntentSucceeded`: the transaction carrying `intent` moves
    from PENDING to AUTHORIZED. `ok` is false when the handler's own query
    or update failed; that failure is caught and logged, and nothing changes.
   */
  ghost function SucceededStep(db: Db, intent: string, ok: bool): (r: Db)
    requires WellFormed(db)
    ensures WellFormed(r)
    ensures r == db.(txs := r.txs) && r.txs.Keys == db.txs.Keys
    ensures forall t :: t in db.txs ==>
      r.txs[t] == if ok && db.txs[t].paymentIntentId == Some(intent) && db.txs[t].status == Pending
                  then db.txs[t].(status := Authorized) else db.txs[t]
  {
    match FindByIntent(db, intent)
    case None => db
    case Some(t) => if ok && db.txs[t].status == Pending then WithStatus(db, t, Authorized) else db
  }

  /**
    `handlePaymentIntentFailed`: the transaction carrying `intent` becomes
    CANCELLED whatever its status, a COMPLETED one included.
   */
  ghost function FailedStep(db: Db, intent: string, ok: bool): (r: Db)
    requires WellFormed(db)
    ensures WellFormed(r)
    ensures r == db.(txs := r.txs) && r.txs.Keys == db.txs.Keys
    ensures forall t :: t in db.txs ==>
      r.txs[t] == if ok && db.txs[t].paymentIntentId == Some(intent)
                  then db.txs[t].(status := Cancelled) else db.txs[t]
  {
    match FindByIntent(db, intent)
    case None => db
    case Some(t) => if ok then WithStatus(db, t, Cancelled) else db
  }

  /** The effect of one verified event; `account.updated` and other types only log. */
  ghost function Dispatch(db: Db, e: Event, ok: bool): (r: Db)
    requires WellFormed(db)
    ensures WellFormed(r)
    ensures r == db.(txs := r.txs) && r.txs.Keys == db.txs.Keys
    ensures (e.AccountUpdated? || e.OtherEvent?) ==> r == db
  {
    match e
    case PaymentIntentSucceeded(i) => SucceededStep(db, i, ok)
    case PaymentIntentFailed(i) => FailedStep(db, i, ok)
    case _ => db
  }

  /** The webhook's answers: 400 for a missing or rejected signature, else `{received: true}`. */
  datatype WebhookResponse = MissingSignature | SignatureRejected | Received

  function WebhookStatus(r: WebhookResponse): int {
    if r == Received then 200 else 400
  }

  datatype WebhookResult = WebhookResult(db: Db, response: WebhookResponse)

  /**
    POST /api/stripe/webhook. `signature` is the signature header; `verified`
    is what signature verification of the raw body against that header
    yields: the event, or `None` when verification throws.
   */
  ghost function WebhookStep(db: Db, signature: Option<string>, verified: Option<Event>, ok: bool): (s: WebhookResult)
    requires WellFormed(db)
    ensures WellFormed(s.db)
    ensures !Present(signature) ==> s == WebhookResult(db, MissingSignature)
    ensures Present(signature) && verified.None? ==> s == WebhookResult(db, SignatureRejected)
    // a verified event is acknowledged whatever its handler did
    ensures s.response == Received <==> Present(signature) && verified.Some?
    ensures WebhookStatus(s.response) == 200 <==> Present(signature) && verified.Some?
    ensures s.response != Received ==> s.db == db
    ensures s.response == Received ==> s.db == Dispatch(db, verified.value, ok)
  {
    if !Present(signature) then WebhookResult(db, MissingSignature)
    else if verified.None? then WebhookResult(db, SignatureRejected)
    else WebhookResult(Dispatch(db, verified.value, ok), Received)
  }

  /** Delivering the same `succeeded` event a second time changes nothing more. */
  lemma {:induction false} SucceededIdempotent(db: Db, intent: string, ok: bool)
    requires WellFormed(db)
    ensures SucceededStep(SucceededStep(db, intent, true), intent, ok) == SucceededStep(db, intent, true)
  {
    var once := SucceededStep(db, intent, true);
    var twice := SucceededStep(once, intent, ok);
    assert twice.txs == once.txs by {
      forall t | t in once.txs ensures twice.txs[t] == once.txs[t] {
        assert once.txs[t].paymentIntentId == db.txs[t].paymentIntentId;
      }
    }
  }

  /**
    Events for an intent no transaction carries, `account.updated` and
    unknown types leave the database as it was.
   */
  lemma UnmatchedEventsChangeNothing(db: Db, e: Event, ok: bool)
    requires WellFormed(db)
    requires (e.PaymentIntentSucceeded? || e.PaymentIntentFailed?) ==> !IntentInUse(db, e.intentId)
    ensures Dispatch(db, e, ok) == db
  {
    var r := Dispatch(db, e, ok);
    forall t | t in db.txs ensures r.txs[t] == db.txs[t] {
      if e.PaymentIntentSucceeded? || e.PaymentIntentFailed? {
        assert db.txs[t].paymentIntentId != Some(e.intentId);
      }
    }
  }

  /**
    A `payment_failed` event that arrives after the handoff completed turns
    the COMPLETED transaction into CANCELLED, while a late `succeeded` event
    leaves it alone.
   */
  lemma LateFailureCancelsCompleted(db: Db, t: TxId, ok: bool)
    requires WellFormed(db) && t in db.txs && db.txs[t].paymentIntentId.Some?
    requires db.txs[t].status == Completed
    ensures FailedStep(db, db.txs[t].paymentIntentId.value, true).txs[t].status == Cancelled
    ensures SucceededStep(db, db.txs[t].paymentIntentId.value, ok).txs[t] == db.txs[t]
  {
  }

  /** The `succeeded` handler against the store. */
  method HandlePaymentIntentSucceeded(db: Store, intent: string) returns (ghost ok: bool)
    requires db.Valid()
    modifies db
    ensures db.Snapshot() == SucceededStep(old(db.Snapshot()), intent, ok)
    ensures db.Valid()
  {
    ok := true;
    if !IntentInUse(db.Snapshot(), intent) {
      return;
    }
    var t :| t in db.txs && db.txs[t].paymentIntentId == Some(intent);
    if db.txs[t].status == Pending {
      var written := db.TrySetStatus(t, Authorized);
      ok := written;
    }
  }

  /** The `payment_failed` handler against the store. */
  method HandlePaymentIntentFailed(db: Store, intent: string) returns (ghost ok: bool)
    requires db.Valid()
    modifies db
    ensures db.Snapshot() == FailedStep(old(db.Snapshot()), intent, ok)
    ensures db.Valid()
  {
    ok := true;
    if !IntentInUse(db.Snapshot(), intent) {
      return;
    }
    var t :| t in db.txs && db.txs[t].paymentIntentId == Some(intent);
    var written := db.TrySetStatus(t, Cancelled);
    ok := written;
  }

  /** The webhook route against the store; `ok` is the outcome of the dispatched handler's own writes. */
  method HandleWebhook(db: Store, signature: Option<string>, verified: Option<Event>)
    returns (r: WebhookResponse, ghost ok: bool)
    requires db.Valid()
    modifies db
    ensures var s := WebhookStep(old(db.Snapshot()), signature, verified, ok);
      db.Snapshot() == s.db && r == s.response
    ensures db.Valid()
  {
    ok := true;
    if !Present(signature) {
      return MissingSignature, ok;
    }
    if verified.None? {
      return SignatureRejected, ok;
    }
    r := Received;
    match verified.value {
      case PaymentIntentSucceeded(i) =>
        ok := HandlePaymentIntentSucceeded(db, i);
      case PaymentIntentFailed(i) =>
        ok := HandlePaymentIntentFailed(db, i);
      case _ =>
    }
  }

  // ---------------------------------------------------------------------
  // POST /api/stripe/create-account

  datatype AccountError =
    | UserNotFound
    | AccountExists(accountId: string)   // the response carries the stored id
    | AccountFailed                      // the gateway could not open the account

  function AccountErrorStatus(e: AccountError): int {
    match e
    case UserNotFound => 404
    case AccountExists(_) => 400
    case AccountFailed => 500
  }

  datatype AccountResult = AccountResult(db: Db, response: Result<string, AccountError>, calls: seq<Entry>)

  /**
    Create-account for `user`. `newAccount` is the gateway's answer: the new
    account id, or `None` when the call failed.
   */
  function CreateAccountStep(db: Db, user: UserId, newAccount: Option<string>): (s: AccountResult)
    ensures user !in db.users ==> s == AccountResult(db, Err(UserNotFound), [])
    // an account id is set once: an existing one is reported and kept
    ensures user in db.users && Present(db.users[user].connectAccountId) ==>
      s == AccountResult(db, Err(AccountExists(db.users[user].connectAccountId.value)), [])
    ensures user in db.users && !Present(db.users[user].connectAccountId) ==>
      s.calls == [Entry(OpenAccount(db.users[user].email, user), newAccount.Some?)]
    ensures s.response.Err? ==> s.db == db
    // the only server error is a failed account call
    ensures s.response.Err? ==> (AccountErrorStatus(s.response.error) == 500 <==> s.calls != [])
    ensures s.response.Ok? <==> user in db.users && !Present(db.users[user].connectAccountId) && newAccount.Some?
    ensures s.response.Ok? ==>
      s.response.value == newAccount.value
      && s.db == db.(users := db.users[user := db.users[user].(connectAccountId := newAccount)])
  {
    if user !in db.users then AccountResult(db, Err(UserNotFound), [])
    else
      var u := db.users[user];
      if Present(u.connectAccountId) then AccountResult(db, Err(AccountExists(u.connectAccountId.value)), [])
      else
        var call := Entry(OpenAccount(u.email, user), newAccount.Some?);
        if newAccount.None? then AccountResult(db, Err(AccountFailed), [call])
        else AccountResult(db.(users := db.users[user := u.(connectAccountId := newAccount)]), Ok(newAccount.value), [call])
  }

  /** After an account was opened and its id stored, a second request reports it and changes nothing. */
  lemma AccountIdSetOnce(db: Db, user: UserId, first: string, second: Option<string>)
    requires user in db.users && !Present(db.users[user].connectAccountId) && first != ""
    ensures var s1 := CreateAccountStep(db, user, Some(first));
      && s1.response == Ok(first)
      && s1.db.users[user].connectAccountId == Some(first)
      && CreateAccountStep(s1.db, user, second) == AccountResult(s1.db, Err(AccountExists(first)), [])
  {
  }

  /** The create-account handler against the store and the gateway. */
  method CreateAccount(db: Store, gw: Adapter, user: UserId) returns (r: Result<string, AccountError>, ghost newAccount: Option<string>)
    modifies db, gw
    ensures var s := CreateAccountStep(old(db.Snapshot()), user, newAccount);
      db.Snapshot() == s.db && r == s.response && gw.log == old(gw.log) + s.calls
  {
    newAccount := None;
    if user !in db.users {
      return Err(UserNotFound), newAccount;
    }
    var u := db.users[user];
    if Present(u.connectAccountId) {
      return Err(AccountExists(u.connectAccountId.value)), newAccount;
    }
    var account := gw.CreateConnectAccount(u.email, user);
    newAccount := account;
    if account.None? {
      return Err(AccountFailed), newAccount;
    }
    db.SetConnectAccount(user, account.value);
    r := Ok(account.value);
  }
}
