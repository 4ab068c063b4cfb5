/**
  The payment gateway (Stripe) as an abstract adapter. Each call succeeds or
  fails without the model knowing why, and every call is appended, with its
  outcome, to a call log, so that properties such as "exactly one capture"
  can be stated over the log.
 */
module Gateway {
  import opened Records

  datatype Call =
    | Authorize(amount: int, currency: string, buyerId: UserId, sellerAccountId: string)
    | Capture(paymentIntentId: string, sellerAccountId: string)
    | Cancel(paymentIntentId: string, sellerAccountId: string)
    | OpenAccount(email: string, userId: UserId)

  /** A logged call and whether the gateway reported success. */
  datatype Entry = Entry(call: Call, ok: bool)

  class Adapter {
    var log: seq<Entry>

    constructor ()
      ensures log == []
    {
      log := [];
    }

    /** `createPaymentIntent` with manual capture: places the hold and returns the intent id. */
    method CreatePaymentIntent(amount: int, currency: string, buyerId: UserId, sellerAccountId: string)
      returns (intentId: Option<string>)
      modifies this
      ensures log == old(log) + [Entry(Authorize(amount, currency, buyerId, sellerAccountId), intentId.Some?)]
    {
      var ok: bool := *;
      var id: string := *;
      intentId := if ok then Some(id) else None;
      log := log + [Entry(Authorize(amount, currency, buyerId, sellerAccountId), ok)];
    }

    /** `capturePayment`: captures the hold and transfers it to the seller's account. */
    method CapturePayment(paymentIntentId: string, sellerAccountId: string) returns (ok: bool)
      modifies this
      ensures log == old(log) + [Entry(Capture(paymentIntentId, sellerAccountId), ok)]
    {
      ok := *;
      log := log + [Entry(Capture(paymentIntentId, sellerAccountId), ok)];
    }

    /** `cancelPaymentIntent`: releases the hold. */
    method CancelPaymentIntent(paymentIntentId: string, sellerAccountId: string) returns (ok: bool)
      modifies this
      ensures log == old(log) + [Entry(Cancel(paymentIntentId, sellerAccountId), ok)]
    {
      ok := *;
      log := log + [Entry(Cancel(paymentIntentId, sellerAccountId), ok)];
    }

    /** `createConnectAccount`: opens a seller account and returns its id. */
    method CreateConnectAccount(email: string, userId: UserId) returns (accountId: Option<string>)
      modifies this
      ensures log == old(log) + [Entry(OpenAccount(email, userId), accountId.Some?)]
    {
      var ok: bool := *;
      var id: string := *;
      accountId := if ok then Some(id) else None;
      log := log + [Entry(OpenAccount(email, userId), ok)];
    }
  }
}
