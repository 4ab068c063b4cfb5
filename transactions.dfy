/**
  The transactions routes: opening an escrow transaction with its handoff,
  reading one, listing a user's transactions and cancelling one, together
  with the six-digit confirmation code shared by the two parties.
 */
module Transactions {
  import opened Records
  import opened Gateway
  import opened Validator

  // ---------------------------------------------------------------------------
  // Confirmation codes

  predicate IsDigit(c: char) {
    '0' <= c <= '9'
  }

  function DigitChar(d: nat): (c: char)
    requires d < 10
    ensures IsDigit(c) && (c == '0' <==> d == 0)
  {
    ('0' as int + d) as char
  }

  /** `toString()` of a natural number: its decimal digits. */
  function Decimal(n: nat): string
    decreases n
  {
    if n < 10 then [DigitChar(n)] else Decimal(n / 10) + [DigitChar(n % 10)]
  }

  /** The number a string of decimal digits denotes. */
  function DecimalValue(s: string): int {
    if s == [] then 0 else 10 * DecimalValue(s[..|s| - 1]) + (s[|s| - 1] as int - '0' as int)
  }

  function Pow10(k: nat): nat {
    if k == 0 then 1 else 10 * Pow10(k - 1)
  }

  /** A confirmation code: exactly six decimal digits with no leading zero. */
  predicate IsConfirmationCode(s: string) {
    |s| == 6 && (forall i :: 0 <= i < |s| ==> IsDigit(s[i])) && s[0] != '0'
  }

  lemma {:induction false} DecimalRoundTrip(n: nat)
    ensures DecimalValue(Decimal(n)) == n
    decreases n
  {
    if n >= 10 {
      DecimalRoundTrip(n / 10);
      var s := Decimal(n);
      assert s[..|s| - 1] == Decimal(n / 10);
    }
  }

  /** A number with k + 1 digits prints as k + 1 digits, the first of them not zero. */
  lemma {:induction false} DecimalShape(n: nat, k: nat)
    requires Pow10(k) <= n < 10 * Pow10(k)
    ensures |Decimal(n)| == k + 1
    ensures forall i :: 0 <= i < |Decimal(n)| ==> IsDigit(Decimal(n)[i])
    ensures Decimal(n)[0] != '0'
    decreases k
  {
    if k > 0 {
      assert Pow10(k) == 10 * Pow10(k - 1);
      assert Pow10(k - 1) <= n / 10 < 10 * Pow10(k - 1);
      DecimalShape(n / 10, k - 1);
    }
  }

  lemma SixDigitCode(n: int)
    requires 100000 <= n <= 999999
    ensures IsConfirmationCode(Decimal(n)) && DecimalValue(Decimal(n)) == n
  {
    assert Pow10(5) == 100000;
    DecimalShape(n, 5);
    DecimalRoundTrip(n);
  }

  /**
    `generateConfirmationCode`: `floor(100000 + random * 900000)` printed in
    decimal. The random draw is a nondeterministic choice in [100000, 999999].
   */
  method GenerateConfirmationCode() returns (code: string)
    ensures IsConfirmationCode(code)
    ensures 100000 <= DecimalValue(code) <= 999999
  {
    var n :| 100000 <= n <= 999999;
    SixDigitCode(n);
    code := Decimal(n);
  }

  // ---------------------------------------------------------------------------
  // POST /api/transactions

  /** The request body; `None` is a field the client left out. */
  datatype CreateRequest = CreateRequest(
    sellerId: Option<UserId>,
    amount: Option<int>,
    currency: Option<string>,
    dropPinLat: Option<real>,
    dropPinLng: Option<real>)

  datatype CreateError =
    | MissingFields
    | SelfTransaction
    | InvalidAmount
    | InvalidCurrency
    | SellerNotFound
    | SellerNotPayable
    | InvalidCoordinates
    | PaymentFailed
    | StoreFailed

  function CreateErrorStatus(e: CreateError): int {
    match e
    case SellerNotFound => 404
    case PaymentFailed => 500
    case StoreFailed => 500
    case _ => 400
  }

  /** The currency the handler works with: the request's, or "usd" when it is left out. */
  function CurrencyOf(req: CreateRequest): (c: string)
    ensures req.currency.Some? ==> c == req.currency.value
    // "usd" is chosen for the request only when it leaves the field out or asks for "usd"
    ensures c == "usd" <==> req.currency.None? || req.currency == Some("usd")
  {
    if req.currency.Some? then req.currency.value else "usd"
  }

  predicate HasRequiredFields(req: CreateRequest) {
    Present(req.sellerId) && req.amount.Some? && req.dropPinLat.Some? && req.dropPinLng.Some?
  }

  /** The seller exists and has a (truthy) connect-account id. */
  predicate SellerPayable(db: Db, req: CreateRequest) {
    req.sellerId.Some? && req.sellerId.value in db.users && Present(db.users[req.sellerId.value].connectAccountId)
  }

  function SellerAccount(db: Db, req: CreateRequest): string
    requires SellerPayable(db, req)
  {
    db.users[req.sellerId.value].connectAccountId.value
  }

  /**
    The guard chain of the create handler, in the handler's order. Each error
    is returned exactly when every earlier check passed and its own failed.
   */
  function CheckCreate(db: Db, buyerId: UserId, req: CreateRequest): (r: Option<CreateError>)
    ensures r == Some(MissingFields) <==> !HasRequiredFields(req)
    ensures r == Some(SelfTransaction) <==> HasRequiredFields(req) && req.sellerId.value == buyerId
    ensures r == Some(InvalidAmount) <==>
      HasRequiredFields(req) && req.sellerId.value != buyerId && !ValidateAmount(req.amount.value)
    ensures r == Some(InvalidCurrency) <==>
      HasRequiredFields(req) && req.sellerId.value != buyerId && ValidateAmount(req.amount.value)
      && !ValidateCurrency(CurrencyOf(req))
    ensures r == Some(SellerNotFound) <==>
      HasRequiredFields(req) && req.sellerId.value != buyerId && ValidateAmount(req.amount.value)
      && ValidateCurrency(CurrencyOf(req)) && req.sellerId.value !in db.users
    ensures r == Some(SellerNotPayable) <==>
      HasRequiredFields(req) && req.sellerId.value != buyerId && ValidateAmount(req.amount.value)
      && ValidateCurrency(CurrencyOf(req)) && req.sellerId.value in db.users && !SellerPayable(db, req)
    ensures r == Some(InvalidCoordinates) <==>
      HasRequiredFields(req) && req.sellerId.value != buyerId && ValidateAmount(req.amount.value)
      && ValidateCurrency(CurrencyOf(req)) && SellerPayable(db, req)
      && !ValidCoordinates(req.dropPinLat.value, req.dropPinLng.value)
    ensures r.None? <==>
      HasRequiredFields(req) && req.sellerId.value != buyerId && ValidateAmount(req.amount.value)
      && ValidateCurrency(CurrencyOf(req)) && SellerPayable(db, req)
      && ValidCoordinates(req.dropPinLat.value, req.dropPinLng.value)
  {
    if !HasRequiredFields(req) then Some(MissingFields)
    else if req.sellerId.value == buyerId then Some(SelfTransaction)
    else if !ValidateAmount(req.amount.value) then Some(InvalidAmount)
    else if !ValidateCurrency(CurrencyOf(req)) then Some(InvalidCurrency)
    else if req.sellerId.value !in db.users then Some(SellerNotFound)
    else if !Present(db.users[req.sellerId.value].connectAccountId) then Some(SellerNotPayable)
    else if !ValidCoordinates(req.dropPinLat.value, req.dropPinLng.value) then Some(InvalidCoordinates)
    else None
  }

  datatype CreateResponse =
    | CreateFailed(error: CreateError)
    | Created(transactionId: TxId, transaction: Transaction, handoffId: HandoffId, handoff: Handoff,
              paymentIntentId: string)

  /** What the gateway, the code generator and the database answered during one creation. */
  datatype CreateOutcome = CreateOutcome(intentId: Option<string>, code: string, stored: bool, cancelOk: bool)

  /** One run of a handler over the database: the new database, the response and the gateway calls made. */
  datatype CreateResult = CreateResult(db: Db, response: CreateResponse, calls: seq<Entry>)

  /** The call that authorizes the payment for a request that passed the guards. */
  function AuthorizeCall(db: Db, buyerId: UserId, req: CreateRequest): Call
    requires CheckCreate(db, buyerId, req).None?
  {
    Authorize(Cents(req.amount.value), CurrencyOf(req), buyerId, SellerAccount(db, req))
  }

  /**
    POST /api/transactions for buyer `buyerId` at time `now`: the guards, the
    authorization, and the atomic creation of the transaction and its handoff
    with a compensating cancel when that creation fails.
   */
  function CreateStep(db: Db, buyerId: UserId, req: CreateRequest, now: int, o: CreateOutcome): (s: CreateResult)
    requires WellFormed(db)
    ensures WellFormed(s.db)
    // a rejected request touches neither the gateway nor the database
    ensures CheckCreate(db, buyerId, req).Some? ==>
      s == CreateResult(db, CreateFailed(CheckCreate(db, buyerId, req).value), [])
    // past the guards, the first gateway call is the authorization of the amount in cents
    ensures CheckCreate(db, buyerId, req).None? ==>
      |s.calls| >= 1 && s.calls[0] == Entry(AuthorizeCall(db, buyerId, req), o.intentId.Some?)
    // a failed authorization creates nothing and calls nothing else
    ensures CheckCreate(db, buyerId, req).None? && o.intentId.None? ==>
      s == CreateResult(db, CreateFailed(PaymentFailed), [Entry(AuthorizeCall(db, buyerId, req), false)])
    // no failure leaves a record behind
    ensures s.response.CreateFailed? ==> s.db == db
    // a server error (500) comes only from the gateway or the store, past every guard
    ensures s.response.CreateFailed? ==>
      (CreateErrorStatus(s.response.error) == 500 <==> CheckCreate(db, buyerId, req).None?)
    // a failed atomic create cancels that intent exactly once and still fails
    ensures s.response == CreateFailed(StoreFailed) ==>
      CheckCreate(db, buyerId, req).None? && o.intentId.Some? &&
      s.calls == [Entry(AuthorizeCall(db, buyerId, req), true),
                  Entry(Cancel(o.intentId.value, SellerAccount(db, req)), o.cancelOk)]
    // success: exactly one new transaction and exactly one new handoff linked to it
    ensures s.response.Created? ==>
      var r := s.response;
      && CheckCreate(db, buyerId, req).None?
      && o.intentId == Some(r.paymentIntentId)
      && s.calls == [Entry(AuthorizeCall(db, buyerId, req), true)]
      && r.transactionId !in db.txs && r.handoffId !in db.handoffs
      && s.db.txs == db.txs[r.transactionId := r.transaction]
      && s.db.handoffs == db.handoffs[r.handoffId := r.handoff]
      && s.db.users == db.users && s.db.locations == db.locations
      && r.transaction == Transaction(buyerId, req.sellerId.value, Cents(req.amount.value), CurrencyOf(req),
                                      Pending, Some(r.paymentIntentId), Some(SellerAccount(db, req)), now)
      && r.handoff.transactionId == r.transactionId
      && !r.handoff.buyerConfirmed && !r.handoff.sellerConfirmed
      && r.handoff.confirmedAt == None
      && r.handoff.expiresAt == now + HandoffTtl
      && r.handoff.confirmationCode == o.code
      && r.handoff.qrCodeData == QrPayload(r.transactionId, r.handoff.confirmationCode)
      && r.handoff.dropPinLat == req.dropPinLat.value && r.handoff.dropPinLng == req.dropPinLng.value
  {
    match CheckCreate(db, buyerId, req)
    case Some(e) => CreateResult(db, CreateFailed(e), [])
    case None =>
      var auth := AuthorizeCall(db, buyerId, req);
      if o.intentId.None? then
        CreateResult(db, CreateFailed(PaymentFailed), [Entry(auth, false)])
      else
        var intent := o.intentId.value;
        var account := SellerAccount(db, req);
        var tx := Transaction(buyerId, req.sellerId.value, Cents(req.amount.value), CurrencyOf(req),
                              Pending, Some(intent), Some(account), now);
        if o.stored && !IntentInUse(db, intent) then
          var db' := Inserted(db, tx, o.code, req.dropPinLat.value, req.dropPinLng.value, now + HandoffTtl);
          CreateResult(db', Created(db.nextId, tx, db.nextId + 1, db'.handoffs[db.nextId + 1], intent),
                       [Entry(auth, true)])
        else
          CreateResult(db, CreateFailed(StoreFailed), [Entry(auth, true), Entry(Cancel(intent, account), o.cancelOk)])
  }

  /** The create handler over the store and the gateway. */
  method CreateTransaction(db: Store, gw: Adapter, buyerId: UserId, req: CreateRequest, now: int)
    returns (r: CreateResponse, ghost o: CreateOutcome)
    requires db.Valid()
    modifies db, gw
    ensures var s := CreateStep(old(db.Snapshot()), buyerId, req, now, o);
      db.Snapshot() == s.db && r == s.response && gw.log == old(gw.log) + s.calls
    ensures r.Created? ==> IsConfirmationCode(r.handoff.confirmationCode)
    ensures db.Valid()
  {
    o := CreateOutcome(None, "", false, false);
    var check := CheckCreate(db.Snapshot(), buyerId, req);
    if check.Some? {
      r := CreateFailed(check.value);
      return;
    }
    var sellerId := req.sellerId.value;
    var account := db.users[sellerId].connectAccountId.value;
    var amount := Cents(req.amount.value);
    var intent := gw.CreatePaymentIntent(amount, CurrencyOf(req), buyerId, account);
    if intent.None? {
      r := CreateFailed(PaymentFailed);
      return;
    }
    var code := GenerateConfirmationCode();
    var tx := Transaction(buyerId, sellerId, amount, CurrencyOf(req), Pending, intent, Some(account), now);
    ghost var before := db.Snapshot();
    var stored, t, h := db.CreateWithHandoff(tx, code, req.dropPinLat.value, req.dropPinLng.value, now + HandoffTtl);
    o := CreateOutcome(intent, code, stored, false);
    if !stored {
      // compensating cancel; its failure is logged and ignored, and the error propagates
      var cancelled := gw.CancelPaymentIntent(intent.value, account);
      o := o.(cancelOk := cancelled);
      r := CreateFailed(StoreFailed);
      return;
    }
    r := Created(t, db.txs[t], h, db.handoffs[h], intent.value);
  }

  // ---------------------------------------------------------------------------
  // GET /api/transactions/:id

  /** A party of the transaction reads it; anyone else is refused. */
  function GetTransaction(db: Db, id: TxId, user: UserId): (r: Result<Transaction, ReadError>)
    ensures r == Err(NotFound) <==> id !in db.txs
    ensures r == Err(Forbidden) <==> id in db.txs && !IsParty(db.txs[id], user)
    ensures r.Ok? <==> id in db.txs && IsParty(db.txs[id], user)
    ensures r.Ok? ==> r.value == db.txs[id]
    ensures r.Err? ==> ReadErrorStatus(r.error) == if id in db.txs then 403 else 404
  {
    if id !in db.txs then Err(NotFound)
    else if !IsParty(db.txs[id], user) then Err(Forbidden)
    else Ok(db.txs[id])
  }

  // ---------------------------------------------------------------------------
  // GET /api/transactions

  datatype Listed = Listed(id: TxId, transaction: Transaction)

  /** The transactions with an id below `k` in which `user` is a party, in id order. */
  function PartyTransactions(txs: map<TxId, Transaction>, user: UserId, k: nat): (r: seq<Listed>)
    ensures forall i :: 0 <= i < |r| ==>
      r[i].id < k && r[i].id in txs && r[i].transaction == txs[r[i].id] && IsParty(r[i].transaction, user)
    ensures forall i, j :: 0 <= i < j < |r| ==> r[i].id < r[j].id
    ensures forall t :: t < k && t in txs && IsParty(txs[t], user) ==> Listed(t, txs[t]) in r
  {
    if k == 0 then []
    else
      var t := k - 1;
      PartyTransactions(txs, user, t) + if t in txs && IsParty(txs[t], user) then [Listed(t, txs[t])] else []
  }

  predicate NewestFirst(s: seq<Listed>) {
    forall i, j :: 0 <= i < j < |s| ==> s[i].transaction.createdAt >= s[j].transaction.createdAt
  }

  function InsertNewestFirst(x: Listed, s: seq<Listed>): (r: seq<Listed>)
    requires NewestFirst(s)
    ensures NewestFirst(r)
    ensures multiset(r) == multiset(s) + multiset{x}
  {
    if s == [] then [x]
    else if x.transaction.createdAt >= s[0].transaction.createdAt then [x] + s
    else
      var rest := InsertNewestFirst(x, s[1..]);
      assert s == [s[0]] + s[1..];
      forall j | 0 <= j < |rest|
        ensures rest[j].transaction.createdAt <= s[0].transaction.createdAt
      {
        assert rest[j] in multiset(rest);
        if rest[j] != x {
          assert rest[j] in multiset(s[1..]);
        }
      }
      [s[0]] + rest
  }

  /** Orders by `createdAt`, newest first (`orderBy: {createdAt: 'desc'}`). */
  function SortNewestFirst(s: seq<Listed>): (r: seq<Listed>)
    ensures NewestFirst(r)
    ensures multiset(r) == multiset(s)
  {
    if s == [] then []
    else
      assert s == s[..|s| - 1] + [s[|s| - 1]];
      InsertNewestFirst(s[|s| - 1], SortNewestFirst(s[..|s| - 1]))
  }

  lemma SameElements(a: seq<Listed>, b: seq<Listed>)
    requires multiset(a) == multiset(b)
    ensures forall x :: x in a <==> x in b
  {
    forall x ensures x in a <==> x in b {
      assert x in a <==> x in multiset(a);
      assert x in b <==> x in multiset(b);
    }
  }

  /**
    The list handler: a permutation of the transactions in which `user` is
    buyer or seller, newest first.
   */
  function ListTransactions(db: Db, user: UserId): (r: seq<Listed>)
    requires WellFormed(db)
    ensures NewestFirst(r)
    ensures multiset(r) == multiset(PartyTransactions(db.txs, user, db.nextId))
    ensures forall i :: 0 <= i < |r| ==>
      r[i].id in db.txs && r[i].transaction == db.txs[r[i].id] && IsParty(r[i].transaction, user)
    ensures forall t :: t in db.txs && IsParty(db.txs[t], user) ==> Listed(t, db.txs[t]) in r
  {
    var matching := PartyTransactions(db.txs, user, db.nextId);
    var r := SortNewestFirst(matching);
    SameElements(r, matching);
    forall i | 0 <= i < |r|
      ensures r[i].id in db.txs && r[i].transaction == db.txs[r[i].id] && IsParty(r[i].transaction, user)
    {
      assert r[i] in matching;
    }
    forall t | t in db.txs && IsParty(db.txs[t], user)
      ensures Listed(t, db.txs[t]) in r
    {
      assert t < db.nextId;
      assert Listed(t, db.txs[t]) in matching;
    }
    r
  }

  // ---------------------------------------------------------------------------
  // POST /api/transactions/:id/cancel

  datatype CancelError = TxNotFound | CancelForbidden | AlreadyCompleted | AlreadyCancelled

  function CancelErrorStatus(e: CancelError): int {
    match e
    case TxNotFound => 404
    case CancelForbidden => 403
    case _ => 400
  }

  datatype CancelResult = CancelResult(db: Db, response: Result<Transaction, CancelError>, calls: seq<Entry>)

  /**
    POST /api/transactions/:id/cancel. Unknown, non-party, completed and
    already-cancelled requests are refused unchanged; any other status,
    EXPIRED included, becomes CANCELLED whatever the gateway's cancel answered.
   */
  function CancelStep(db: Db, id: TxId, user: UserId, cancelOk: bool): (s: CancelResult)
    requires WellFormed(db)
    ensures WellFormed(s.db)
    ensures s.response.Err? ==> s.db == db && s.calls == []
    ensures s.response.Err? ==>
      CancelErrorStatus(s.response.error) == (if id !in db.txs then 404 else if !IsParty(db.txs[id], user) then 403 else 400)
    ensures s.response == Err(TxNotFound) <==> id !in db.txs
    ensures s.response == Err(CancelForbidden) <==> id in db.txs && !IsParty(db.txs[id], user)
    ensures s.response == Err(AlreadyCompleted) <==>
      id in db.txs && IsParty(db.txs[id], user) && db.txs[id].status == Completed
    ensures s.response == Err(AlreadyCancelled) <==>
      id in db.txs && IsParty(db.txs[id], user) && db.txs[id].status == Cancelled
    // only that transaction's status changes
    ensures s.response.Ok? ==>
      && id in db.txs
      && s.db == db.(txs := db.txs[id := db.txs[id].(status := Cancelled)])
      && s.response.value == s.db.txs[id]
      && s.calls == if HasGatewayRefs(db.txs[id])
                    then [Entry(Cancel(db.txs[id].paymentIntentId.value, db.txs[id].connectAccountId.value), cancelOk)]
                    else []
  {
    if id !in db.txs then CancelResult(db, Err(TxNotFound), [])
    else
      var t := db.txs[id];
      if !IsParty(t, user) then CancelResult(db, Err(CancelForbidden), [])
      else if t.status == Completed then CancelResult(db, Err(AlreadyCompleted), [])
      else if t.status == Cancelled then CancelResult(db, Err(AlreadyCancelled), [])
      else
        var calls := if HasGatewayRefs(t)
                     then [Entry(Cancel(t.paymentIntentId.value, t.connectAccountId.value), cancelOk)]
                     else [];
        var db' := WithStatus(db, id, Cancelled);
        CancelResult(db', Ok(db'.txs[id]), calls)
  }

  /** A gateway failure never blocks a cancellation: the outcome does not depend on it. */
  lemma CancelIgnoresGatewayOutcome(db: Db, id: TxId, user: UserId)
    requires WellFormed(db)
    ensures CancelStep(db, id, user, true).db == CancelStep(db, id, user, false).db
    ensures CancelStep(db, id, user, true).response == CancelStep(db, id, user, false).response
  {
  }

  /** An EXPIRED transaction can still be cancelled by a party. */
  lemma CancelAcceptsExpired(db: Db, id: TxId, user: UserId, cancelOk: bool)
    requires WellFormed(db) && id in db.txs && IsParty(db.txs[id], user) && db.txs[id].status == Expired
    ensures CancelStep(db, id, user, cancelOk).response.Ok?
    ensures CancelStep(db, id, user, cancelOk).db.txs[id].status == Cancelled
  {
  }

  /** The cancel handler over the store and the gateway. */
  method CancelTransaction(db: Store, gw: Adapter, id: TxId, user: UserId)
    returns (r: Result<Transaction, CancelError>, ghost cancelOk: bool)
    requires db.Valid()
    modifies db, gw
    ensures var s := CancelStep(old(db.Snapshot()), id, user, cancelOk);
      db.Snapshot() == s.db && r == s.response && gw.log == old(gw.log) + s.calls
    ensures db.Valid()
  {
    cancelOk := true;
    if id !in db.txs {
      return Err(TxNotFound), cancelOk;
    }
    var t := db.txs[id];
    if !IsParty(t, user) {
      return Err(CancelForbidden), cancelOk;
    }
    if t.status == Completed {
      return Err(AlreadyCompleted), cancelOk;
    }
    if t.status == Cancelled {
      return Err(AlreadyCancelled), cancelOk;
    }
    if Present(t.paymentIntentId) && Present(t.connectAccountId) {
      // continue with the cancellation even if the gateway fails
      cancelOk := gw.CancelPaymentIntent(t.paymentIntentId.value, t.connectAccountId.value);
    }
    db.SetStatus(id, Cancelled);
    r := Ok(db.txs[id]);
  }
}
