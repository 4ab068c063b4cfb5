/**
  The handoff routes: reading a handoff, and the two confirmation paths (typing
  the six-digit code, or scanning the QR payload). When the second party
  confirms, the held payment is captured and the transaction completes.
 */
module Handoffs {
  import opened Records
  import opened Gateway
  import Transactions

  datatype ConfirmError =
    | CodeRequired       // no confirmation code in the body
    | QrRequired         // no QR data in the body
    | QrMalformed        // the QR data is not JSON
    | HandoffNotFound
    | NotAParty
    | InvalidCode        // the code differs from the handoff's
    | QrMismatch         // the QR payload names another transaction or code
    | HandoffExpired
    | InvalidState       // the transaction is neither PENDING nor AUTHORIZED
    | AlreadyConfirmed   // the caller's own flag is already set
    | CaptureFailed      // the gateway refused the capture
    | QrNullPayload      // the QR data is the JSON literal null: reading a field of it throws

  function ConfirmErrorStatus(e: ConfirmError): int {
    match e
    case HandoffNotFound => 404
    case NotAParty => 403
    case CaptureFailed => 500
    case QrNullPayload => 500
    case _ => 400
  }

  datatype ConfirmResponse =
    | ConfirmFailed(error: ConfirmError)
    | Confirmed(handoff: Handoff, transaction: Transaction, paymentReleased: bool)

  /** A confirmation's effect: the new database, the response, and the gateway calls issued. */
  datatype ConfirmResult = ConfirmResult(db: Db, response: ConfirmResponse, calls: seq<Entry>)

  /** GET /api/handoffs/:id: a party of the handoff's transaction reads it. */
  function GetHandoff(db: Db, id: HandoffId, user: UserId): (r: Result<Handoff, ReadError>)
    requires WellFormed(db)
    ensures r == Err(NotFound) <==> id !in db.handoffs
    ensures r == Err(Forbidden) <==> id in db.handoffs && !IsParty(TxOf(db, id), user)
    ensures r.Ok? <==> id in db.handoffs && IsParty(TxOf(db, id), user)
    ensures r.Ok? ==> r.value == db.handoffs[id]
    ensures r.Err? ==> ReadErrorStatus(r.error) == if id in db.handoffs then 403 else 404
  {
    if id !in db.handoffs then Err(NotFound)
    else if !IsParty(TxOf(db, id), user) then Err(Forbidden)
    else Ok(db.handoffs[id])
  }

  /** Whether `user`'s own confirmation flag on `h` is already set. */
  predicate CallerConfirmed(h: Handoff, t: Transaction, user: UserId) {
    (t.buyerId == user && h.buyerConfirmed) || (t.sellerId == user && h.sellerConfirmed)
  }

  /** No handoff appears or disappears, and no confirmation flag is ever cleared. */
  ghost predicate FlagsOnlyRise(db: Db, db': Db) {
    && db'.handoffs.Keys == db.handoffs.Keys
    && (forall k :: k in db.handoffs ==>
          (db.handoffs[k].buyerConfirmed ==> db'.handoffs[k].buyerConfirmed)
          && (db.handoffs[k].sellerConfirmed ==> db'.handoffs[k].sellerConfirmed))
  }

  /** The capture of transaction `t`'s hold, as the confirmation paths issue it. */
  function CaptureOf(t: Transaction, ok: bool): Entry
    requires HasGatewayRefs(t)
  {
    Entry(Capture(t.paymentIntentId.value, t.connectAccountId.value), ok)
  }

  /**
    The part both confirmation paths share, once every check has passed: set
    the caller's flag; if both flags are now set and the transaction carries
    both gateway references, capture the hold (`captureOk` is the gateway's
    answer) and, on success, complete the transaction and stamp `confirmedAt`.
   */
  function RecordConfirmation(db: Db, id: HandoffId, asBuyer: bool, now: int, captureOk: bool): (s: ConfirmResult)
    requires id in db.handoffs && db.handoffs[id].transactionId in db.txs
    ensures WellFormed(db) ==> WellFormed(s.db)
    ensures id in s.db.handoffs && db.handoffs[id].transactionId in s.db.txs
    // only this handoff and its transaction change
    ensures var t := db.handoffs[id].transactionId;
      s.db == db.(txs := db.txs[t := s.db.txs[t]], handoffs := db.handoffs[id := s.db.handoffs[id]])
    // the caller's flag is set; the other party's flag is kept, and so is every
    // other field of the handoff but the confirmation time
    ensures var (h, h') := (db.handoffs[id], s.db.handoffs[id]);
      && (if asBuyer then h'.buyerConfirmed && h'.sellerConfirmed == h.sellerConfirmed
          else h'.sellerConfirmed && h'.buyerConfirmed == h.buyerConfirmed)
      && h' == h.(buyerConfirmed := h'.buyerConfirmed, sellerConfirmed := h'.sellerConfirmed,
                  confirmedAt := h'.confirmedAt)
    // the hold is captured exactly when both flags are now set and both references exist
    ensures s.calls == if BothConfirmed(s.db.handoffs[id]) && HasGatewayRefs(TxOf(db, id))
                       then [CaptureOf(TxOf(db, id), captureOk)] else []
    // a refused capture is a 500 that leaves the transaction and the confirmation time alone
    ensures s.response.ConfirmFailed? <==> s.calls != [] && !captureOk
    ensures s.response.ConfirmFailed? ==> s.response.error == CaptureFailed
    ensures (s.calls == [] || !captureOk) ==>
      s.db.txs == db.txs && s.db.handoffs[id].confirmedAt == db.handoffs[id].confirmedAt
    // a successful capture completes the transaction at `now`
    ensures s.calls != [] && captureOk ==>
      TxOf(s.db, id) == TxOf(db, id).(status := Completed) && s.db.handoffs[id].confirmedAt == Some(now)
    ensures s.response.Confirmed? ==>
      && s.response.paymentReleased == BothConfirmed(s.db.handoffs[id])
      && s.response.handoff == s.db.handoffs[id]
      && s.response.transaction == TxOf(s.db, id)
  {
    var flagged := FlagStep(db, id, asBuyer);
    var h := flagged.handoffs[id];
    var t := db.txs[h.transactionId];
    if !BothConfirmed(h) then
      ConfirmResult(flagged, Confirmed(h, t, false), [])
    else if !HasGatewayRefs(t) then
      ConfirmResult(flagged, Confirmed(h, t, true), [])
    else if !captureOk then
      ConfirmResult(flagged, ConfirmFailed(CaptureFailed), [CaptureOf(t, false)])
    else
      var db' := CompleteStep(flagged, id, now);
      ConfirmResult(db', Confirmed(db'.handoffs[id], db'.txs[h.transactionId], true), [CaptureOf(t, true)])
  }

  /** The database after the caller's flag on handoff `id` is set. */
  function FlagStep(db: Db, id: HandoffId, asBuyer: bool): (r: Db)
    requires id in db.handoffs
    ensures WellFormed(db) ==> WellFormed(r)
    ensures r == db.(handoffs := db.handoffs[id := Flagged(db.handoffs[id], asBuyer)])
  {
    WithHandoff(db, id, Flagged(db.handoffs[id], asBuyer))
  }

  /** The database after a successful capture: the transaction COMPLETED and the handoff stamped at `now`. */
  function CompleteStep(db: Db, id: HandoffId, now: int): (r: Db)
    requires id in db.handoffs && db.handoffs[id].transactionId in db.txs
    ensures WellFormed(db) ==> WellFormed(r)
    ensures var t := db.handoffs[id].transactionId;
      r == db.(txs := db.txs[t := db.txs[t].(status := Completed)],
               handoffs := db.handoffs[id := db.handoffs[id].(confirmedAt := Some(now))])
  {
    var t := db.handoffs[id].transactionId;
    WithHandoff(WithStatus(db, t, Completed), id, db.handoffs[id].(confirmedAt := Some(now)))
  }

  /** A code confirmation that passes the body, lookup, party and code checks. */
  ghost predicate CodeAccepted(db: Db, id: HandoffId, user: UserId, code: Option<string>)
    requires WellFormed(db)
  {
    Present(code) && id in db.handoffs && IsParty(TxOf(db, id), user)
    && code.value == db.handoffs[id].confirmationCode
  }

  /**
    POST /api/handoffs/:id/confirm. The checks run in the order the route
    makes them; an expired handoff reached with the right code has its
    transaction marked EXPIRED whatever its status was.
   */
  function ConfirmCodeStep(db: Db, id: HandoffId, user: UserId, code: Option<string>, now: int, captureOk: bool)
    : (s: ConfirmResult)
    requires WellFormed(db)
    ensures WellFormed(s.db) && FlagsOnlyRise(db, s.db)
    ensures forall k :: k in db.handoffs && k != id ==> s.db.handoffs[k] == db.handoffs[k]
    ensures !Present(code) ==> s == ConfirmResult(db, ConfirmFailed(CodeRequired), [])
    ensures Present(code) && id !in db.handoffs ==> s == ConfirmResult(db, ConfirmFailed(HandoffNotFound), [])
    ensures Present(code) && id in db.handoffs && !IsParty(TxOf(db, id), user) ==>
      s == ConfirmResult(db, ConfirmFailed(NotAParty), [])
    ensures (Present(code) && id in db.handoffs && IsParty(TxOf(db, id), user)
             && code.value != db.handoffs[id].confirmationCode) ==>
      s == ConfirmResult(db, ConfirmFailed(InvalidCode), [])
    ensures CodeAccepted(db, id, user, code) && now > db.handoffs[id].expiresAt ==>
      s == ConfirmResult(WithStatus(db, db.handoffs[id].transactionId, Expired), ConfirmFailed(HandoffExpired), [])
    ensures CodeAccepted(db, id, user, code) && now <= db.handoffs[id].expiresAt && !IsOpen(TxOf(db, id).status) ==>
      s == ConfirmResult(db, ConfirmFailed(InvalidState), [])
    ensures (CodeAccepted(db, id, user, code) && now <= db.handoffs[id].expiresAt && IsOpen(TxOf(db, id).status)
             && CallerConfirmed(db.handoffs[id], TxOf(db, id), user)) ==>
      s == ConfirmResult(db, ConfirmFailed(AlreadyConfirmed), [])
    ensures (CodeAccepted(db, id, user, code) && now <= db.handoffs[id].expiresAt && IsOpen(TxOf(db, id).status)
             && !CallerConfirmed(db.handoffs[id], TxOf(db, id), user)) ==>
      s == RecordConfirmation(db, id, TxOf(db, id).buyerId == user, now, captureOk)
    // on this path a capture is issued only by the confirmation that sets the second flag
    ensures s.calls != [] ==>
      id in db.handoffs && !BothConfirmed(db.handoffs[id]) && BothConfirmed(s.db.handoffs[id])
  {
    if !Present(code) then ConfirmResult(db, ConfirmFailed(CodeRequired), [])
    else if id !in db.handoffs then ConfirmResult(db, ConfirmFailed(HandoffNotFound), [])
    else
      var h := db.handoffs[id];
      var t := TxOf(db, id);
      if !IsParty(t, user) then ConfirmResult(db, ConfirmFailed(NotAParty), [])
      else if h.confirmationCode != code.value then ConfirmResult(db, ConfirmFailed(InvalidCode), [])
      else if now > h.expiresAt then
        ConfirmResult(WithStatus(db, h.transactionId, Expired), ConfirmFailed(HandoffExpired), [])
      else if !IsOpen(t.status) then ConfirmResult(db, ConfirmFailed(InvalidState), [])
      else if CallerConfirmed(h, t, user) then ConfirmResult(db, ConfirmFailed(AlreadyConfirmed), [])
      else RecordConfirmation(db, id, t.buyerId == user, now, captureOk)
  }

  /**
    The body field `qrCodeData` after `JSON.parse`: absent, not JSON, the
    literal null, or a value whose two fields are read (`None` when a field
    is missing or of another type).
   */
  datatype QrInput =
    | QrMissing
    | QrUnparsable
    | QrNull
    | QrValue(transactionId: Option<TxId>, confirmationCode: Option<string>)

  /** What parsing the stored QR text (the JSON of `p`) yields. */
  function Scanned(p: QrPayload): QrInput {
    QrValue(Some(p.transactionId), Some(p.confirmationCode))
  }

  /** Whether a parsed payload names this handoff's transaction and code. */
  predicate QrMatches(qr: QrInput, h: Handoff) {
    qr.QrValue? && qr.transactionId == Some(h.transactionId) && qr.confirmationCode == Some(h.confirmationCode)
  }

  /**
    POST /api/handoffs/:id/confirm-qr. After the payload matches, only the
    party and expiry checks run: there is no status check and no check of the
    caller's own flag, and an expired handoff is refused without being marked.
   */
  function ConfirmQrStep(db: Db, id: HandoffId, user: UserId, qr: QrInput, now: int, captureOk: bool)
    : (s: ConfirmResult)
    requires WellFormed(db)
    ensures WellFormed(s.db) && FlagsOnlyRise(db, s.db)
    // every refusal other than a failed capture leaves everything as it was
    ensures s.response.ConfirmFailed? && s.response.error != CaptureFailed ==> s.db == db && s.calls == []
    ensures qr.QrMissing? ==> s.response == ConfirmFailed(QrRequired)
    ensures qr.QrUnparsable? ==> s.response == ConfirmFailed(QrMalformed)
    ensures (qr.QrNull? || qr.QrValue?) && id !in db.handoffs ==> s.response == ConfirmFailed(HandoffNotFound)
    ensures qr.QrNull? && id in db.handoffs ==> s.response == ConfirmFailed(QrNullPayload)
    ensures qr.QrValue? && id in db.handoffs && !QrMatches(qr, db.handoffs[id]) ==>
      s.response == ConfirmFailed(QrMismatch)
    ensures id in db.handoffs && QrMatches(qr, db.handoffs[id]) && !IsParty(TxOf(db, id), user) ==>
      s.response == ConfirmFailed(NotAParty)
    ensures (id in db.handoffs && QrMatches(qr, db.handoffs[id]) && IsParty(TxOf(db, id), user)
             && now > db.handoffs[id].expiresAt) ==>
      s.response == ConfirmFailed(HandoffExpired)
    ensures (id in db.handoffs && QrMatches(qr, db.handoffs[id]) && IsParty(TxOf(db, id), user)
             && now <= db.handoffs[id].expiresAt) ==>
      s == RecordConfirmation(db, id, TxOf(db, id).buyerId == user, now, captureOk)
  {
    match qr
    case QrMissing => ConfirmResult(db, ConfirmFailed(QrRequired), [])
    case QrUnparsable => ConfirmResult(db, ConfirmFailed(QrMalformed), [])
    case QrNull =>
      if id !in db.handoffs then ConfirmResult(db, ConfirmFailed(HandoffNotFound), [])
      else ConfirmResult(db, ConfirmFailed(QrNullPayload), [])
    case QrValue(_, _) =>
      if id !in db.handoffs then ConfirmResult(db, ConfirmFailed(HandoffNotFound), [])
      else
        var h := db.handoffs[id];
        var t := TxOf(db, id);
        if !QrMatches(qr, h) then ConfirmResult(db, ConfirmFailed(QrMismatch), [])
        else if !IsParty(t, user) then ConfirmResult(db, ConfirmFailed(NotAParty), [])
        else if now > h.expiresAt then ConfirmResult(db, ConfirmFailed(HandoffExpired), [])
        else RecordConfirmation(db, id, t.buyerId == user, now, captureOk)
  }

  /** The shared tail of both confirmation handlers, against the store and the gateway. */
  method Release(db: Store, gw: Adapter, id: HandoffId, asBuyer: bool, now: int)
    returns (r: ConfirmResponse, ghost captureOk: bool)
    requires db.Valid() && id in db.handoffs
    modifies db, gw
    ensures var s := RecordConfirmation(old(db.Snapshot()), id, asBuyer, now, captureOk);
      db.Snapshot() == s.db && r == s.response && gw.log == old(gw.log) + s.calls
    ensures db.Valid()
  {
    captureOk := true;
    db.SetConfirmed(id, asBuyer);
    var h := db.handoffs[id];
    var t := db.txs[h.transactionId];
    if !(h.buyerConfirmed && h.sellerConfirmed) {
      r := Confirmed(h, t, false);
      return;
    }
    if Present(t.paymentIntentId) && Present(t.connectAccountId) {
      var ok := gw.CapturePayment(t.paymentIntentId.value, t.connectAccountId.value);
      captureOk := ok;
      if !ok {
        r := ConfirmFailed(CaptureFailed);
        return;
      }
      db.SetStatus(h.transactionId, Completed);
      db.SetConfirmedAt(id, now);
    }
    var finalRow := db.handoffs[id];
    r := Confirmed(finalRow, db.txs[finalRow.transactionId], true);
  }

  /** The code confirmation handler; `captureOk` is the gateway's answer if a capture was issued. */
  method ConfirmHandoff(db: Store, gw: Adapter, id: HandoffId, user: UserId, code: Option<string>, now: int)
    returns (r: ConfirmResponse, ghost captureOk: bool)
    requires db.Valid()
    modifies db, gw
    ensures var s := ConfirmCodeStep(old(db.Snapshot()), id, user, code, now, captureOk);
      db.Snapshot() == s.db && r == s.response && gw.log == old(gw.log) + s.calls
    ensures db.Valid()
  {
    captureOk := true;
    if !Present(code) {
      return ConfirmFailed(CodeRequired), captureOk;
    }
    if id !in db.handoffs {
      return ConfirmFailed(HandoffNotFound), captureOk;
    }
    var h := db.handoffs[id];
    var t := db.txs[h.transactionId];
    var isBuyer := t.buyerId == user;
    var isSeller := t.sellerId == user;
    if !isBuyer && !isSeller {
      return ConfirmFailed(NotAParty), captureOk;
    }
    if h.confirmationCode != code.value {
      return ConfirmFailed(InvalidCode), captureOk;
    }
    if now > h.expiresAt {
      db.SetStatus(h.transactionId, Expired);
      return ConfirmFailed(HandoffExpired), captureOk;
    }
    if t.status != Authorized && t.status != Pending {
      return ConfirmFailed(InvalidState), captureOk;
    }
    if (isBuyer && h.buyerConfirmed) || (isSeller && h.sellerConfirmed) {
      return ConfirmFailed(AlreadyConfirmed), captureOk;
    }
    r, captureOk := Release(db, gw, id, isBuyer, now);
  }

  /** The QR confirmation handler. */
  method ConfirmHandoffQr(db: Store, gw: Adapter, id: HandoffId, user: UserId, qr: QrInput, now: int)
    returns (r: ConfirmResponse, ghost captureOk: bool)
    requires db.Valid()
    modifies db, gw
    ensures var s := ConfirmQrStep(old(db.Snapshot()), id, user, qr, now, captureOk);
      db.Snapshot() == s.db && r == s.response && gw.log == old(gw.log) + s.calls
    ensures db.Valid()
  {
    captureOk := true;
    if qr.QrMissing? {
      return ConfirmFailed(QrRequired), captureOk;
    }
    if qr.QrUnparsable? {
      return ConfirmFailed(QrMalformed), captureOk;
    }
    if id !in db.handoffs {
      return ConfirmFailed(HandoffNotFound), captureOk;
    }
    if qr.QrNull? {
      return ConfirmFailed(QrNullPayload), captureOk;
    }
    var h := db.handoffs[id];
    if qr.transactionId != Some(h.transactionId) || qr.confirmationCode != Some(h.confirmationCode) {
      return ConfirmFailed(QrMismatch), captureOk;
    }
    var t := db.txs[h.transactionId];
    var isBuyer := t.buyerId == user;
    var isSeller := t.sellerId == user;
    if !isBuyer && !isSeller {
      return ConfirmFailed(NotAParty), captureOk;
    }
    if now > h.expiresAt {
      return ConfirmFailed(HandoffExpired), captureOk;
    }
    r, captureOk := Release(db, gw, id, isBuyer, now);
  }

  // ---------------------------------------------------------------------
  // Properties of the confirmation flow

  /** One call of the code confirmation route. */
  datatype CodeConfirmation = CodeConfirmation(id: HandoffId, user: UserId, code: Option<string>, now: int, captureOk: bool)

  /** The capture calls issued for handoff `h` while the code confirmations `reqs` run in order from `db`. */
  ghost function CodeCaptures(db: Db, reqs: seq<CodeConfirmation>, h: HandoffId): nat
    requires WellFormed(db)
    decreases |reqs|
  {
    if reqs == [] then 0
    else
      var q := reqs[0];
      var s := ConfirmCodeStep(db, q.id, q.user, q.code, q.now, q.captureOk);
      (if q.id == h then |s.calls| else 0) + CodeCaptures(s.db, reqs[1..], h)
  }

  /** 1 while handoff `h` still waits for a confirmation, 0 once both parties have confirmed. */
  function Unreleased(db: Db, h: HandoffId): nat
    requires h in db.handoffs
  {
    if BothConfirmed(db.handoffs[h]) then 0 else 1
  }

  /** One code confirmation issues a capture for `h` only by using up `h`'s one pending confirmation. */
  lemma CodeStepSpendsPending(db: Db, q: CodeConfirmation, h: HandoffId)
    requires WellFormed(db) && h in db.handoffs
    ensures var s := ConfirmCodeStep(db, q.id, q.user, q.code, q.now, q.captureOk);
      h in s.db.handoffs && (if q.id == h then |s.calls| else 0) + Unreleased(s.db, h) <= Unreleased(db, h)
  {
    var s := ConfirmCodeStep(db, q.id, q.user, q.code, q.now, q.captureOk);
    if q.id == h && s.calls != [] {
      assert CodeAccepted(db, h, q.user, q.code);
      var t := TxOf(db, h);
      assert s == RecordConfirmation(db, h, t.buyerId == q.user, q.now, q.captureOk);
    }
  }

  /**
    Through the code route, a handoff's hold is captured at most once over any
    sequence of requests, and never once both flags are already set.
   */
  lemma {:induction false} CodePathCapturesAtMostOnce(db: Db, reqs: seq<CodeConfirmation>, h: HandoffId)
    requires WellFormed(db) && h in db.handoffs
    ensures CodeCaptures(db, reqs, h) <= Unreleased(db, h)
    decreases |reqs|
  {
    if reqs != [] {
      var q := reqs[0];
      var s := ConfirmCodeStep(db, q.id, q.user, q.code, q.now, q.captureOk);
      CodeStepSpendsPending(db, q, h);
      CodePathCapturesAtMostOnce(s.db, reqs[1..], h);
    }
  }

  /**
    After a capture the gateway refused, both flags stay set and the
    transaction stays open: the code route then refuses every retry without
    capturing, while the QR route captures again.
   */
  lemma RetryAfterFailedCapture(db: Db, id: HandoffId, asBuyer: bool, now: int, user: UserId, now2: int, ok2: bool)
    requires WellFormed(db) && id in db.handoffs
    requires IsOpen(TxOf(db, id).status)
    requires var s := RecordConfirmation(db, id, asBuyer, now, false); s.response == ConfirmFailed(CaptureFailed)
    requires IsParty(TxOf(db, id), user) && now2 <= db.handoffs[id].expiresAt
    ensures var db1 := RecordConfirmation(db, id, asBuyer, now, false).db;
      && BothConfirmed(db1.handoffs[id]) && TxOf(db1, id) == TxOf(db, id)
      && ConfirmCodeStep(db1, id, user, Some(db.handoffs[id].confirmationCode), now2, ok2).calls == []
      && ConfirmQrStep(db1, id, user, Scanned(db.handoffs[id].qrCodeData), now2, ok2).calls
         == [CaptureOf(TxOf(db, id), ok2)]
  {
    var db1 := RecordConfirmation(db, id, asBuyer, now, false).db;
    var code := db.handoffs[id].confirmationCode;
    if code != "" {
      assert CodeAccepted(db1, id, user, Some(code));
    }
  }

  /**
    The QR route has no status or duplicate check: on a transaction already
    COMPLETED, where the code route refuses, a matching scan by a party
    before expiry captures the hold a second time.
   */
  lemma QrPathRecapturesCompleted(db: Db, id: HandoffId, user: UserId, now: int, captureOk: bool)
    requires WellFormed(db) && id in db.handoffs
    requires TxOf(db, id).status == Completed && BothConfirmed(db.handoffs[id])
    requires HasGatewayRefs(TxOf(db, id)) && IsParty(TxOf(db, id), user)
    requires now <= db.handoffs[id].expiresAt
    ensures ConfirmCodeStep(db, id, user, Some(db.handoffs[id].confirmationCode), now, captureOk).calls == []
    ensures var qr := QrValue(Some(db.handoffs[id].transactionId), Some(db.handoffs[id].confirmationCode));
      ConfirmQrStep(db, id, user, qr, now, captureOk).calls == [CaptureOf(TxOf(db, id), captureOk)]
  {
  }

  /**
    The code route's lazy expiry overwrites the status of any transaction it
    reaches, a COMPLETED one included; the QR route refuses without writing.
   */
  lemma LateCodeExpiresCompleted(db: Db, id: HandoffId, user: UserId, now: int, captureOk: bool)
    requires WellFormed(db) && id in db.handoffs
    requires TxOf(db, id).status == Completed && IsParty(TxOf(db, id), user)
    requires db.handoffs[id].confirmationCode != "" && now > db.handoffs[id].expiresAt
    ensures var s := ConfirmCodeStep(db, id, user, Some(db.handoffs[id].confirmationCode), now, captureOk);
      s.response == ConfirmFailed(HandoffExpired) && TxOf(s.db, id).status == Expired
    ensures var s := ConfirmQrStep(db, id, user, Scanned(db.handoffs[id].qrCodeData), now, captureOk);
      s.response == ConfirmFailed(HandoffExpired) && s.db == db
  {
    assert CodeAccepted(db, id, user, Some(db.handoffs[id].confirmationCode));
  }

  /**
    The intended flow: on a fresh handoff of an open transaction with both
    gateway references, the buyer's code confirmation releases nothing, and
    the seller's then captures once and completes the transaction.
   */
  lemma BuyerThenSellerReleases(db: Db, id: HandoffId, now: int, captureOk: bool)
    requires WellFormed(db) && id in db.handoffs
    requires var (h, t) := (db.handoffs[id], TxOf(db, id));
      !h.buyerConfirmed && !h.sellerConfirmed && IsOpen(t.status) && HasGatewayRefs(t)
      && t.buyerId != t.sellerId && h.confirmationCode != "" && now <= h.expiresAt
    ensures var (h, t) := (db.handoffs[id], TxOf(db, id));
      var s1 := ConfirmCodeStep(db, id, t.buyerId, Some(h.confirmationCode), now, captureOk);
      && s1.calls == [] && s1.response.Confirmed? && !s1.response.paymentReleased
      && var s2 := ConfirmCodeStep(s1.db, id, t.sellerId, Some(h.confirmationCode), now, true);
      && s2.calls == [CaptureOf(t, true)]
      && s2.response.Confirmed? && s2.response.paymentReleased
      && TxOf(s2.db, id).status == Completed && s2.db.handoffs[id].confirmedAt == Some(now)
  {
    var (h, t) := (db.handoffs[id], TxOf(db, id));
    assert CodeAccepted(db, id, t.buyerId, Some(h.confirmationCode));
    var s1 := ConfirmCodeStep(db, id, t.buyerId, Some(h.confirmationCode), now, captureOk);
    assert TxOf(s1.db, id) == t;
    assert CodeAccepted(s1.db, id, t.sellerId, Some(h.confirmationCode));
  }

  /**
    The QR code a new handoff is created with is accepted when its buyer
    scans it back by the deadline: the payload matches, the buyer's
    confirmation is recorded, and nothing is released yet.
   */
  lemma CreatedQrConfirms(db: Db, buyerId: UserId, req: Transactions.CreateRequest, now: int,
                          o: Transactions.CreateOutcome, scanAt: int, captureOk: bool)
    requires WellFormed(db) && Transactions.CreateStep(db, buyerId, req, now, o).response.Created?
    requires scanAt <= now + HandoffTtl
    ensures var s := Transactions.CreateStep(db, buyerId, req, now, o);
      var (id, qr) := (s.response.handoffId, Scanned(s.response.handoff.qrCodeData));
      && id in s.db.handoffs && QrMatches(qr, s.db.handoffs[id])
      && var c := ConfirmQrStep(s.db, id, buyerId, qr, scanAt, captureOk);
      && c.calls == [] && c.response.Confirmed? && !c.response.paymentReleased
      && c.db.handoffs[id].buyerConfirmed && !c.db.handoffs[id].sellerConfirmed
  {
    var s := Transactions.CreateStep(db, buyerId, req, now, o);
    var id := s.response.handoffId;
    assert TxOf(s.db, id) == s.response.transaction;
  }

  /**
    The status codes of the code route: a 500 is always a refused capture;
    every other refusal is a 4xx.
   */
  lemma CodeServerErrors(db: Db, id: HandoffId, user: UserId, code: Option<string>, now: int, captureOk: bool)
    requires WellFormed(db)
    ensures var s := ConfirmCodeStep(db, id, user, code, now, captureOk);
      s.response.ConfirmFailed? ==> (ConfirmErrorStatus(s.response.error) == 500 <==> s.calls != [])
  {
    if CodeAccepted(db, id, user, code) && now <= db.handoffs[id].expiresAt && IsOpen(TxOf(db, id).status)
       && !CallerConfirmed(db.handoffs[id], TxOf(db, id), user) {
      var r := RecordConfirmation(db, id, TxOf(db, id).buyerId == user, now, captureOk);
      assert r.response.ConfirmFailed? ==> r.response.error == CaptureFailed && r.calls != [];
    }
  }

  /**
    The status codes of the QR route: a 500 is a refused capture or a null
    payload for an existing handoff; every other refusal is a 4xx.
   */
  lemma QrServerErrors(db: Db, id: HandoffId, user: UserId, qr: QrInput, now: int, captureOk: bool)
    requires WellFormed(db)
    ensures var s := ConfirmQrStep(db, id, user, qr, now, captureOk);
      s.response.ConfirmFailed? ==>
        (ConfirmErrorStatus(s.response.error) == 500 <==> s.calls != [] || (qr.QrNull? && id in db.handoffs))
  {
    if id in db.handoffs && QrMatches(qr, db.handoffs[id]) && IsParty(TxOf(db, id), user)
       && now <= db.handoffs[id].expiresAt {
      var r := RecordConfirmation(db, id, TxOf(db, id).buyerId == user, now, captureOk);
      assert r.response.ConfirmFailed? ==> r.response.error == CaptureFailed && r.calls != [];
    }
  }
}
