# Escrow handoff backend — a verified Dafny model

This project models the backend core of a peer-to-peer escrow handoff service.

- **Opening a transaction.** A buyer opens a transaction against a seller. The payment gateway places a hold on the buyer's money. A handoff record with a six-digit confirmation code and a QR payload is created beside the transaction.
- **Confirming.** At the meeting, each party confirms by typing the code or scanning the QR payload. The confirmation that sets the second flag captures the hold and completes the transaction.
- **Webhook.** Gateway events reconcile the transaction's status.
- **Expiry sweep.** A periodic sweep expires unconfirmed handoffs past their deadline and cancels their holds.
- **Location relay.** Both parties can share their position with each other over a socket relay, or record it through a REST fallback.

The database is the class `Records.Store`. Its fields are maps keyed by id; its value is the datatype `Records.Db`.

The handlers come in four shapes:

- **Handlers that write.** The create, cancel, confirm, webhook and create-account routes, and the expiry sweep, are modelled twice:
  - a method over the store and the gateway adapter `Gateway.Adapter`, which logs every call together with its outcome;
  - a specification function over `Db` values, such as `Handoffs.ConfirmCodeStep`, `Transactions.CancelStep` or `HandoffService.Swept`.

  The method's postcondition says that its new database, its response and the gateway calls it appended are those of the function. The lemmas then state the properties of the flow on the functions.
- **The location route.** `Locations.PostLocation` states its new store directly, against its guard function `Locations.PostCheck`.
- **Read-only handlers.** `Transactions.GetTransaction`, `Handoffs.GetHandoff` and `Transactions.ListTransactions` change nothing. They are modelled only as functions over `Db`.
- **Socket handlers.** These are methods of the class `SocketHandlers.Relay`, whose fields are the connections, rooms and outgoing messages. Each method's postcondition states the new relay state and the messages it sends directly. No step function over `Db` stands behind them. Their guards are the functions `SocketHandlers.JoinCheck` and `SocketHandlers.LocationCheck`.

Outcomes the model cannot know become ghost out-parameters of the methods and parameters of the functions:

- the gateway's answers;
- a random code;
- a failed database write.

The clock is an integer millisecond parameter `now`.

The store invariant `Records.WellFormed` requires five things:

- ids lie below the next id;
- every handoff's transaction exists;
- every handoff's QR payload names its own transaction and confirmation code;
- no two handoffs share a transaction;
- no two transactions share a payment-intent id.

The handlers keep all five: the creation route writes the QR payload from the new ids. The lookups by payment-intent id and by transaction rely on the last two. Every handler preserves the invariant.

## Model

| member | source | states |
|---|---|---|
| Validator.ToLower | backend/src/middleware/validator.ts:7 | lower-casing keeps the length and lower-cases each character in place |
| Validator.ToLowerIdempotent | backend/src/middleware/validator.ts:7 | lower-casing twice is lower-casing once |
| Validator.ValidateCurrencyIgnoresCase | backend/src/middleware/validator.ts:5-8 | a currency code is accepted exactly when its lower-cased form is |
| Validator.AcceptedCurrencyShape | backend/src/middleware/validator.ts:5-8 | every accepted code has three letters |
| Validator.ValidateCurrencyAcceptsAnyCase | backend/src/middleware/validator.ts:5-8 | USD, usd, Eur, GBP, cad and AUD are accepted |
| Validator.ValidateCurrencyRejectsOthers | backend/src/middleware/validator.ts:5-8 | jpy, the empty code and usdx are refused |
| Validator.ValidateAmount | backend/src/middleware/validator.ts:1-3 | 0 < amount <= 1000000 on the integer amount; an accepted amount is stored as 100 to 100000000 cents |
| Validator.ValidateCurrency | backend/src/middleware/validator.ts:5-8 | the lower-cased code is one of usd, eur, gbp, cad, aud; an accepted code has three characters |
| Validator.ValidateUserId | backend/src/middleware/validator.ts:10-12 | a user id is valid iff it is a present, non-empty string, the presence test the handlers use |
| Validator.AmountCapAppliesToDollars | backend/src/middleware/validator.ts:1-3 | 0 and 1000001 are refused, 1 and 1000000 accepted; the cap applies before the cents conversion, so stored amounts reach 100000000 cents |
| Transactions.DecimalRoundTrip | backend/src/routes/transactions.ts:266-268 | the decimal string of a number reads back as that number |
| Transactions.DecimalShape | backend/src/routes/transactions.ts:266-268 | a number of k+1 digits prints as k+1 digits with no leading zero |
| Transactions.SixDigitCode | backend/src/routes/transactions.ts:266-268 | every number in [100000, 999999] prints as a six-digit code that reads back as itself |
| Transactions.GenerateConfirmationCode | backend/src/routes/transactions.ts:266-268 | the code is six decimal digits with no leading zero, with value in [100000, 999999] |
| Transactions.CurrencyOf | backend/src/routes/transactions.ts:17 | the request's currency when given; "usd" only when the field is absent or is "usd" |
| Transactions.CheckCreate | backend/src/routes/transactions.ts:21-58 | each create error is returned iff all earlier guards pass and its own fails, in the order fields, self-dealing, amount, currency, seller, seller account, coordinates |
| Transactions.CreateStep | backend/src/routes/transactions.ts:15-141 | a refused request calls nothing and stores nothing; a failed authorization stores nothing; a failed atomic create cancels that intent once and stores nothing; success adds exactly one PENDING transaction and one handoff linked to it with flags false, no confirmedAt, expiry now+24h and a QR payload naming the new transaction and code; for a body whose fields have their expected types, a refusal is a 500 exactly when every guard passed |
| Transactions.CreateTransaction | backend/src/routes/transactions.ts:15-141 | the handler's new store, response and gateway calls are those of CreateStep, and a created handoff carries a six-digit code |
| Transactions.GetTransaction | backend/src/routes/transactions.ts:148-179 | NotFound (404) iff the id is unknown, Forbidden (403) iff the caller is no party, otherwise the stored transaction |
| Transactions.PartyTransactions | backend/src/routes/transactions.ts:190-193 | exactly the transactions in which the user is buyer or seller, each once |
| Transactions.SortNewestFirst | backend/src/routes/transactions.ts:203 | the result is ordered by createdAt descending and is a permutation of the input |
| Transactions.ListTransactions | backend/src/routes/transactions.ts:186-210 | newest first, a permutation of the caller's transactions: every listed one is the caller's, and every one of the caller's is listed |
| Transactions.CancelStep | backend/src/routes/transactions.ts:217-262 | unknown 404, non-party 403, COMPLETED or CANCELLED 400, each with no change and no call; otherwise the new database is the old one with only that transaction's status set to CANCELLED, with one cancel call when both gateway ids are present |
| Transactions.CancelIgnoresGatewayOutcome | backend/src/routes/transactions.ts:243-256 | the new store and the response do not depend on whether the gateway cancel succeeded |
| Transactions.CancelAcceptsExpired | backend/src/routes/transactions.ts:234-256 | an EXPIRED transaction can still be cancelled by a party |
| Transactions.CancelTransaction | backend/src/routes/transactions.ts:217-262 | the handler's new store, response and gateway calls are those of CancelStep |
| Records.IntentOwnedOnce | backend/src/routes/stripe.ts:104-106 | in a well-formed store a payment-intent id names at most one transaction |
| Handoffs.GetHandoff | backend/src/routes/handoffs.ts:13-50 | NotFound (404) iff the id is unknown, Forbidden (403) iff the caller is no party of its transaction, otherwise the stored handoff |
| Handoffs.RecordConfirmation | backend/src/routes/handoffs.ts:116-189 | sets exactly the caller's flag and keeps the other; captures once iff both flags are now set and both ids are present; a refused capture is a 500 that keeps status and confirmedAt; a successful one gives COMPLETED and confirmedAt = now; paymentReleased iff both flags are set; only this handoff and its transaction change, and the handoff keeps every field except the two flags and confirmedAt |
| Handoffs.ConfirmCodeStep | backend/src/routes/handoffs.ts:57-193 | errors in order: code missing, handoff unknown, no party, wrong code, then expiry (marks the transaction EXPIRED whatever its status), a status other than PENDING/AUTHORIZED, own flag already set; all of them but expiry change nothing; flags only rise; a capture only comes from the confirmation that sets the second flag |
| Handoffs.ConfirmQrStep | backend/src/routes/handoffs.ts:200-330 | errors in order: no payload, not JSON, handoff unknown, null payload, mismatched transaction or code, no party, expired (nothing written); there is no status check and no own-flag check before RecordConfirmation |
| Handoffs.Release | backend/src/routes/handoffs.ts:116-189 | the store, response and gateway calls are those of RecordConfirmation |
| Handoffs.ConfirmHandoff | backend/src/routes/handoffs.ts:57-193 | the handler's store, response and gateway calls are those of ConfirmCodeStep |
| Handoffs.ConfirmHandoffQr | backend/src/routes/handoffs.ts:200-330 | the handler's store, response and gateway calls are those of ConfirmQrStep |
| Handoffs.CodeStepSpendsPending | backend/src/routes/handoffs.ts:102-159 | a code confirmation captures for a handoff only by moving it from not-both-confirmed to both-confirmed |
| Handoffs.CodePathCapturesAtMostOnce | backend/src/routes/handoffs.ts:102-159 | over any sequence of code confirmations a handoff's hold is captured at most once, and never once both flags were already set |
| Handoffs.RetryAfterFailedCapture | backend/src/routes/handoffs.ts:135-166 | after a refused capture both flags stay set and the transaction is unchanged; a code retry then captures nothing, a QR retry captures again |
| Handoffs.QrPathRecapturesCompleted | backend/src/routes/handoffs.ts:102-114 | on a COMPLETED transaction the code route refuses, while a matching QR scan captures the hold a second time |
| Handoffs.LateCodeExpiresCompleted | backend/src/routes/handoffs.ts:92-99 | a late correct code turns a COMPLETED transaction into EXPIRED; a late QR scan is refused and writes nothing |
| Handoffs.BuyerThenSellerReleases | backend/src/routes/handoffs.ts:116-189 | on a fresh open handoff, the buyer's confirmation releases nothing and the seller's then captures once, completing the transaction at now |
| Handoffs.CodeServerErrors | backend/src/routes/handoffs.ts:57-193 | on the code route a refusal is a 500 exactly when a capture was issued (and refused); every other refusal is a 4xx |
| Handoffs.QrServerErrors | backend/src/routes/handoffs.ts:200-330 | on the QR route a refusal is a 500 exactly when a capture was refused or the payload is null for an existing handoff |
| Handoffs.CreatedQrConfirms | backend/src/routes/transactions.ts:101-112 | the QR payload stored at creation matches its handoff, and the buyer's scan by the deadline records the buyer's confirmation without releasing payment |
| StripeRoutes.FindByIntent | backend/src/routes/stripe.ts:104-106 | finds the one transaction carrying the intent id, or none iff no transaction carries it |
| StripeRoutes.SucceededStep | backend/src/routes/stripe.ts:102-118 | the transaction carrying the intent moves PENDING to AUTHORIZED; every other transaction and status is unchanged; a failed write changes nothing |
| StripeRoutes.FailedStep | backend/src/routes/stripe.ts:120-135 | the transaction carrying the intent becomes CANCELLED whatever its status; nothing else changes |
| StripeRoutes.Dispatch | backend/src/routes/stripe.ts:71-92 | account.updated and unknown event types change nothing; the two intent events only rewrite transactions |
| StripeRoutes.WebhookStep | backend/src/routes/stripe.ts:59-99 | a missing or rejected signature is a 400 with no change; a verified event is acknowledged with 200 whatever its handler did |
| StripeRoutes.SucceededIdempotent | backend/src/routes/stripe.ts:109-114 | applying the same succeeded event twice gives the state of applying it once |
| StripeRoutes.UnmatchedEventsChangeNothing | backend/src/routes/stripe.ts:105-109 | an event for an intent no transaction carries, account.updated and unknown types leave the store as it was |
| StripeRoutes.LateFailureCancelsCompleted | backend/src/routes/stripe.ts:120-130 | a payment_failed event turns a COMPLETED transaction into CANCELLED; a succeeded event leaves it alone |
| StripeRoutes.HandlePaymentIntentSucceeded | backend/src/routes/stripe.ts:102-118 | the handler's new store is that of SucceededStep |
| StripeRoutes.HandlePaymentIntentFailed | backend/src/routes/stripe.ts:120-135 | the handler's new store is that of FailedStep |
| StripeRoutes.HandleWebhook | backend/src/routes/stripe.ts:59-99 | the route's new store and response are those of WebhookStep |
| StripeRoutes.CreateAccountStep | backend/src/routes/stripe.ts:13-51 | unknown user 404 and an existing account 400, both with no call and no change; otherwise one account call, and the id is stored iff the call succeeded; the only 500 is a failed account call |
| StripeRoutes.AccountIdSetOnce | backend/src/routes/stripe.ts:25-41 | once an account id is stored, a second request reports it and changes nothing |
| StripeRoutes.CreateAccount | backend/src/routes/stripe.ts:13-51 | the handler's store, response and gateway calls are those of CreateAccountStep |
| Gateway.Adapter.CreatePaymentIntent | backend/src/services/stripe.service.ts:55-71 | exactly one authorization with manual capture is logged, with its outcome; an intent id is returned iff it succeeded |
| Gateway.Adapter.CapturePayment | backend/src/services/stripe.service.ts:76-91 | exactly one capture (with its transfer) is logged, with its outcome, which is returned |
| Gateway.Adapter.CancelPaymentIntent | backend/src/services/stripe.service.ts:96-99 | exactly one cancel is logged, with its outcome, which is returned |
| Gateway.Adapter.CreateConnectAccount | backend/src/services/stripe.service.ts:23-49 | exactly one account opening is logged, with its outcome; an account id is returned iff it succeeded |
| HandoffService.Selected | backend/src/services/handoff.service.ts:8-18 | the sweep selects exactly the handoffs with expiresAt < now and no confirmedAt |
| HandoffService.InSomeOrder | backend/src/services/handoff.service.ts:8-20 | the query's rows come back each exactly once, in some order, as many as were selected |
| HandoffService.Swept | backend/src/services/handoff.service.ts:20-47 | the open transaction of each selected handoff becomes EXPIRED; closed transactions and those of unselected handoffs are unchanged; no handoff changes |
| HandoffService.OneCancelPerExpiredTx | backend/src/services/handoff.service.ts:31-45 | in any visiting order, the cancelled transactions are distinct, and are exactly the open ones with both ids that a selected handoff points to |
| HandoffService.SweepIdempotent | backend/src/services/handoff.service.ts:20-25 | a second sweep at the same now selects the same handoffs, changes nothing and cancels nothing |
| HandoffService.NothingLeftToCancel | backend/src/services/handoff.service.ts:20-45 | after a sweep, no selected handoff still has a transaction to cancel |
| HandoffService.ExpireOne | backend/src/services/handoff.service.ts:20-29 | visiting one more handoff expires its transaction if it is open and changes nothing else |
| HandoffService.ExpireHandoff | backend/src/services/handoff.service.ts:22-45 | an open transaction becomes EXPIRED; a cancel is logged exactly when it is open and has both ids, whatever the cancel's outcome |
| HandoffService.ExpireOldHandoffs | backend/src/services/handoff.service.ts:7-50 | the new store is Swept of the old one; the count is the number of selected handoffs, not of expired ones; the gateway log grows by exactly one cancel per newly expired transaction with both ids, in visiting order |
| SocketHandlers.JoinCheck | backend/src/socket/handlers.ts:47-74 | the join errors in order: no handoff id, unauthenticated, unknown handoff, no party; success iff all pass, with role buyer iff the caller is the buyer |
| SocketHandlers.LocationCheck | backend/src/socket/handlers.ts:110-142 | the update errors in order: missing fields, unauthenticated, bad coordinates, unknown handoff, no party; success iff all pass |
| SocketHandlers.PublishIffJoin | backend/src/socket/handlers.ts:57-74 | past the field and coordinate checks, an update is accepted exactly when a join would be, with the same role |
| SocketHandlers.Relay.Connect | backend/src/socket/handlers.ts:17-34 | a connection is admitted with or without a verified token; the user id is recorded only when the token verified |
| SocketHandlers.Relay.JoinHandoff | backend/src/socket/handlers.ts:42-91 | a refusal emits one error to the caller and leaves membership alone; success adds the socket to the room, records the handoff id, tells the other members (never the joiner) the role, and acknowledges the joiner; every room member stays an authenticated party |
| SocketHandlers.Relay.LeaveHandoff | backend/src/socket/handlers.ts:96-100 | with no check, removes only this socket from that room and acknowledges it |
| SocketHandlers.Relay.LocationUpdate | backend/src/socket/handlers.ts:105-172 | a refusal emits one error and stores nothing; otherwise the point is offered to the history (a failed write is swallowed), sent to the other room members only, and acknowledged to the sender alone; no transaction or handoff changes; every recipient is another authenticated party of the handoff |
| SocketHandlers.Relay.RelayHandoffConfirmed | backend/src/socket/handlers.ts:177-184 | the payload is passed on unchecked to the other members of the named room |
| Locations.PostCheck | backend/src/routes/locations.ts:16-42 | 400 for a missing field before anything else, 400 for bad coordinates before the lookup, then 404 for an unknown handoff and 403 for a non-party; accepted iff all pass |
| Locations.RouteMatchesSocket | backend/src/routes/locations.ts:16-42 | for an authenticated caller the REST guards and the socket guards accept the same requests and refuse the others with the corresponding error |
| Locations.PostLocation | backend/src/routes/locations.ts:11-51 | a refused request stores nothing; otherwise exactly one location record is appended and returned, or a failed write is a 500 that stores nothing; a 500 happens only past every guard |

## Left out

- Transport and storage engines: Express routing, socket.io, and Prisma queries are not modelled. Each handler is one atomic step over in-memory maps, so interleavings of concurrent requests are not modelled.
- Database failures that the handlers do not react to are not modelled. The model has no state in which one of these writes failed:
  - In the following cases the failure throws into a 500 with no other effect:
    - a lookup that throws in a route (in a socket handler it becomes an `error` event to the caller instead: backend/src/socket/handlers.ts:87 and :168);
    - the flag write of the code route (backend/src/routes/handoffs.ts:124) or of the QR route (backend/src/routes/handoffs.ts:261);
    - the code route's expiry write (backend/src/routes/handoffs.ts:94).
  - In the following cases the gateway's effect stays while the store is not updated:
    - The cancel-status update (backend/src/routes/transactions.ts:253) runs after `cancelPaymentIntent` (:246). The hold is released, but the transaction keeps its open status.
    - The create-account user update (backend/src/routes/stripe.ts:38) runs after the connect account was opened (:32). A retry then opens a second account.
    - The writes after a successful capture (backend/src/routes/handoffs.ts:148-159 and :285-296) run after the money is captured and transferred. Their failure gives the same 500 as a refused capture (:160, :297). Both flags stay set, and either the transaction stays open with `confirmedAt` null, or it is COMPLETED with `confirmedAt` null. Retries then go as follows:
      - On the code route before the deadline, a retry is refused as already confirmed while the transaction is open. It is refused as not in a valid state once the transaction is COMPLETED, because the status guard (:102-109) runs first.
      - On the code route after the deadline, a correct code takes the lazy-expiry branch (:92-97) and marks the transaction EXPIRED.
      - The QR route has no status or own-flag guard, so a retry captures the already-captured intent again.
      - After the deadline, the sweep marks a still-open transaction EXPIRED and sends a cancel for an intent that was already captured.
- Handoffs.RecordConfirmation: a 500 from a confirmation happens exactly when the logged capture failed. The state above, with the money captured and the transaction not completed, is not reachable in the model.
- Transactions.CreateStep: request bodies are assumed to carry each field with its expected JSON type, absent or present. In the source, a `currency` that is present but not a string (null, a number, an array, an object) bypasses the `'usd'` default (backend/src/routes/transactions.ts:17). `toLowerCase` (backend/src/middleware/validator.ts:7) then throws, and the catch (backend/src/routes/transactions.ts:138) answers 500 at the currency guard, before the seller and coordinate guards. The clause "a refusal is a 500 exactly when every guard passed" holds only for well-typed bodies.
- Stripe internals are not modelled. Each gateway call is one logged success or failure. A capture whose transfer fails counts as a failed capture.
- Webhook signature verification is a parameter: the event it yields, or none.
- JWT verification in the socket middleware and the REST authentication middleware are not modelled. The verified user id is a parameter.
- Records.ValidCoordinates: backend/src/services/location.service.ts is not part of this model. The bounds of ±90 latitude and ±180 longitude are assumed. The location history write is a step that succeeds or fails.
- Amounts are integers. The `parseFloat` and `Math.round(amount * 100)` conversions are not modelled, and `Validator.ValidateAmount` takes the integer amount.
- Validator.ToLower lower-cases ASCII letters only. JavaScript's full Unicode `toLowerCase` is not modelled.
- Ids are natural numbers handed out in order, instead of database-generated strings.
- The QR text is modelled as its parse result, `Handoffs.QrInput`. JSON (RFC 8259) text handling is not modelled.
- Response messages, the related records included in the read responses (buyer and seller `{id, email, name}` and the handoff at backend/src/routes/transactions.ts:155-163 and :194-202, and the transaction with buyer and seller at backend/src/routes/handoffs.ts:20-31; the model returns the stored record alone), the development-only `details` field, the account onboarding link, the payment intent's client secret in the create response (backend/src/routes/transactions.ts:133-136), and the timestamps in socket events are not modelled.
- The `disconnect` socket event is not modelled: it only logs. Room cleanup on disconnect belongs to socket.io.
- The scheduler in backend/src/utils/cron.ts is not modelled: it only calls the sweep periodically and logs errors.
- The mobile app is not modelled.
- A sweep-level database failure is not modelled: the source lets it escape to the scheduler. Each sweep write succeeds in the model.
- Behaviours kept as the source has them, although each breaks a rule the model does not impose: that COMPLETED, CANCELLED and EXPIRED are final, that a hold is captured once, and that the amount limit of 1000000 bounds the stored amount, which is in cents.
  - The QR route re-captures on a completed transaction (`Handoffs.QrPathRecapturesCompleted`).
  - The code route's late expiry overwrites COMPLETED (`Handoffs.LateCodeExpiresCompleted`).
  - Cancel turns EXPIRED into CANCELLED (`Transactions.CancelAcceptsExpired`).
  - `payment_failed` overrides any status (`StripeRoutes.LateFailureCancelsCompleted`).
  - The amount cap is checked on dollars before the conversion to cents (`Validator.AmountCapAppliesToDollars`).
