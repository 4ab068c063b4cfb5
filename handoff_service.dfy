/**
  The periodic expiry sweep: every handoff whose deadline has passed without
  a completed confirmation expires its still-open transaction and releases
  the payment hold.
 */
module HandoffService {
  import opened Records
  import opened Gateway

  /** The handoffs the sweep's query returns at time `now`: past their deadline and never completed. */
  function Selected(db: Db, now: int): (r: set<HandoffId>)
    ensures forall h :: h in r <==> h in db.handoffs && db.handoffs[h].expiresAt < now && db.handoffs[h].confirmedAt.None?
  {
    set h | h in db.handoffs && db.handoffs[h].expiresAt < now && db.handoffs[h].confirmedAt.None?
  }

  /**
    The rows of a query, each once, in whatever order the database returns
    them.
   */
  method InSomeOrder<T>(s: set<T>) returns (xs: seq<T>)
    ensures Distinct(xs) && Elements(xs) == s && |xs| == |s|
  {
    var pending := s;
    xs := [];
    while pending != {}
      invariant Distinct(xs) && Elements(xs) + pending == s
      invariant Elements(xs) !! pending
      decreases |pending|
    {
      var x :| x in pending;
      assert Elements(xs + [x]) == Elements(xs) + {x};
      xs := xs + [x];
      pending := pending - {x};
    }
    DistinctSize(xs);
  }

  /** A sequence without repetitions has as many elements as its set of elements. */
  lemma {:induction false} DistinctSize<T>(s: seq<T>)
    requires Distinct(s)
    ensures |Elements(s)| == |s|
  {
    if s != [] {
      var init := s[..|s| - 1];
      assert Distinct(init);
      DistinctSize(init);
      assert s == init + [s[|s| - 1]];
      assert Elements(s) == Elements(init) + {s[|s| - 1]};
    }
  }

  /** Whether transaction `t` belongs to one of the handoffs in `done`. */
  ghost predicate LinkedFrom(db: Db, done: set<HandoffId>, t: TxId) {
    exists h :: h in done && h in db.handoffs && db.handoffs[h].transactionId == t
  }

  /** Transaction `t` after the handoffs in `done` were processed: EXPIRED if it was open and linked from `done`. */
  ghost function ExpiredTx(db: Db, done: set<HandoffId>, t: TxId): Transaction
    requires t in db.txs
  {
    if IsOpen(db.txs[t].status) && LinkedFrom(db, done, t) then db.txs[t].(status := Expired) else db.txs[t]
  }

  /** The database after the loop has processed the handoffs in `done`, in any order. */
  ghost function ExpiredUpTo(db: Db, done: set<HandoffId>): (r: Db)
    ensures r == db.(txs := r.txs) && r.txs.Keys == db.txs.Keys
    ensures forall t :: t in db.txs ==> r.txs[t] == ExpiredTx(db, done, t)
  {
    db.(txs := map t | t in db.txs :: ExpiredTx(db, done, t))
  }

  /** Expiring transactions changes no payment-intent id, so the database stays well formed. */
  lemma ExpiredUpToWellFormed(db: Db, done: set<HandoffId>)
    requires WellFormed(db)
    ensures WellFormed(ExpiredUpTo(db, done))
  {
    IntentsKept(db.txs, ExpiredUpTo(db, done).txs);
  }

  /**
    `expireOldHandoffs` at time `now`: each selected handoff whose transaction
    is PENDING or AUTHORIZED expires that transaction. No handoff changes,
    and no other transaction does.
   */
  ghost function Swept(db: Db, now: int): (r: Db)
    requires WellFormed(db)
    ensures WellFormed(r) && r.handoffs == db.handoffs && r.txs.Keys == db.txs.Keys
    ensures r.users == db.users && r.locations == db.locations && r.nextId == db.nextId
    // a closed transaction, or one no selected handoff points at, is untouched
    ensures forall t :: t in db.txs && (!IsOpen(db.txs[t].status) || !LinkedFrom(db, Selected(db, now), t)) ==>
      r.txs[t] == db.txs[t]
    // an open transaction of a selected handoff is EXPIRED and otherwise unchanged
    ensures forall h :: h in Selected(db, now) && IsOpen(TxOf(db, h).status) ==>
      r.txs[db.handoffs[h].transactionId] == TxOf(db, h).(status := Expired)
  {
    ExpiredUpToWellFormed(db, Selected(db, now));
    ExpiredUpTo(db, Selected(db, now))
  }

  predicate Distinct<T(==)>(s: seq<T>) {
    forall i, j :: 0 <= i < j < |s| ==> s[i] != s[j]
  }

  function Elements<T>(s: seq<T>): set<T> {
    set x | x in s
  }

  /**
    The transactions whose payment holds the loop cancels while it processes
    the handoffs of `order` in that order: those that were open and carry both
    gateway references, read from the state the query returned.
   */
  ghost function CancelledTxs(db: Db, order: seq<HandoffId>): (ts: seq<TxId>)
    requires WellFormed(db) && forall h :: h in order ==> h in db.handoffs
    ensures forall t :: t in ts ==> t in db.txs && HasGatewayRefs(db.txs[t])
  {
    if order == [] then []
    else
      var h := order[|order| - 1];
      var t := db.handoffs[h].transactionId;
      CancelledTxs(db, order[..|order| - 1])
        + if IsOpen(db.txs[t].status) && HasGatewayRefs(db.txs[t]) then [t] else []
  }

  /** The cancel call the sweep issues for transaction `tx`. */
  function CancelOf(tx: Transaction): Call
    requires HasGatewayRefs(tx)
  {
    Cancel(tx.paymentIntentId.value, tx.connectAccountId.value)
  }

  /** Whether `entries` are, in order, the cancels of the transactions `ts` of `db` (outcomes aside). */
  ghost predicate CancelsOf(db: Db, ts: seq<TxId>, entries: seq<Entry>)
    requires forall t :: t in ts ==> t in db.txs && HasGatewayRefs(db.txs[t])
  {
    |entries| == |ts| && forall i :: 0 <= i < |ts| ==> entries[i].call == CancelOf(db.txs[ts[i]])
  }

  /**
    Whatever the order, the sweep cancels each newly expired transaction that
    has both gateway references exactly once, and nothing else.
   */
  lemma {:induction false} OneCancelPerExpiredTx(db: Db, order: seq<HandoffId>)
    requires WellFormed(db) && Distinct(order) && forall h :: h in order ==> h in db.handoffs
    ensures Distinct(CancelledTxs(db, order))
    ensures forall t :: t in CancelledTxs(db, order) <==>
      t in db.txs && IsOpen(db.txs[t].status) && HasGatewayRefs(db.txs[t]) && LinkedFrom(db, Elements(order), t)
    decreases |order|
  {
    if order != [] {
      var prefix := order[..|order| - 1];
      var h := order[|order| - 1];
      var t := db.handoffs[h].transactionId;
      assert forall k :: k in prefix ==> k in order;
      assert Distinct(prefix);
      OneCancelPerExpiredTx(db, prefix);
      var done := Elements(order);
      var before := Elements(prefix);
      assert done == before + {h};
      // no handoff processed earlier belongs to `t`
      NotYetLinked(db, before, h);
      forall u ensures u in CancelledTxs(db, order) <==>
        u in db.txs && IsOpen(db.txs[u].status) && HasGatewayRefs(db.txs[u]) && LinkedFrom(db, done, u)
      {
        LinkedFromInsert(db, before, h, u);
      }
    }
  }

  /**
    Running the sweep again at the same time changes nothing and cancels
    nothing: every transaction it selected is already closed.
   */
  lemma SweepIdempotent(db: Db, now: int, order: seq<HandoffId>)
    requires WellFormed(db)
    requires forall h :: h in order ==> h in Selected(db, now)
    ensures Selected(Swept(db, now), now) == Selected(db, now)
    ensures Swept(Swept(db, now), now) == Swept(db, now)
    ensures CancelledTxs(Swept(db, now), order) == []
  {
    var once := Swept(db, now);
    assert Selected(once, now) == Selected(db, now);
    var twice := Swept(once, now);
    forall t | t in once.txs ensures twice.txs[t] == once.txs[t] {
      if IsOpen(once.txs[t].status) && LinkedFrom(once, Selected(once, now), t) {
        assert false;
      }
    }
    assert twice.txs == once.txs;
    NothingLeftToCancel(db, now, order);
  }

  lemma {:induction false} NothingLeftToCancel(db: Db, now: int, order: seq<HandoffId>)
    requires WellFormed(db)
    requires forall h :: h in order ==> h in Selected(db, now)
    ensures CancelledTxs(Swept(db, now), order) == []
    decreases |order|
  {
    if order != [] {
      var h := order[|order| - 1];
      assert forall k :: k in order[..|order| - 1] ==> k in order;
      NothingLeftToCancel(db, now, order[..|order| - 1]);
      var t := db.handoffs[h].transactionId;
      assert LinkedFrom(db, Selected(db, now), t);
      assert !IsOpen(Swept(db, now).txs[t].status);
    }
  }

  /**
    Processing one more handoff `h`: no handoff processed before it belongs to
    its transaction, so that transaction is still as the query read it, and
    it alone changes, to EXPIRED if it was open.
   */
  lemma ExpireOne(db: Db, done: set<HandoffId>, h: HandoffId)
    requires h in db.handoffs && db.handoffs[h].transactionId in db.txs
    requires !LinkedFrom(db, done, db.handoffs[h].transactionId)
    ensures var t := db.handoffs[h].transactionId;
      && t in ExpiredUpTo(db, done).txs
      && ExpiredUpTo(db, done).txs[t] == db.txs[t]
      && ExpiredUpTo(db, done + {h}) ==
           if IsOpen(db.txs[t].status) then WithStatus(ExpiredUpTo(db, done), t, Expired) else ExpiredUpTo(db, done)
  {
    var t := db.handoffs[h].transactionId;
    var before := ExpiredUpTo(db, done);
    var after := ExpiredUpTo(db, done + {h});
    var expected := if IsOpen(db.txs[t].status) then WithStatus(before, t, Expired) else before;
    forall u | u in db.txs ensures after.txs[u] == expected.txs[u] {
      ExpiredTxInsert(db, done, h, u);
    }
    assert after.txs == expected.txs;
  }

  /** Transaction `u` after `h` joins `done`, when no handoff in `done` shares the transaction of `h`. */
  lemma ExpiredTxInsert(db: Db, done: set<HandoffId>, h: HandoffId, u: TxId)
    requires h in db.handoffs && u in db.txs && !LinkedFrom(db, done, db.handoffs[h].transactionId)
    ensures var t := db.handoffs[h].transactionId;
      ExpiredTx(db, done + {h}, u) ==
        if u == t && IsOpen(db.txs[t].status) then db.txs[t].(status := Expired) else ExpiredTx(db, done, u)
  {
    LinkedFromInsert(db, done, h, u);
  }

  /** Handoffs link distinct transactions, so none in `done` shares the transaction of `h`. */
  lemma NotYetLinked(db: Db, done: set<HandoffId>, h: HandoffId)
    requires WellFormed(db) && h in db.handoffs && h !in done
    ensures !LinkedFrom(db, done, db.handoffs[h].transactionId)
  {
    forall k | k in done && k in db.handoffs
      ensures db.handoffs[k].transactionId != db.handoffs[h].transactionId
    {
      assert SeparateLinks(db.handoffs, k, h);
    }
  }

  /** Adding `h` to `done` links exactly one more transaction: the one `h` belongs to. */
  lemma LinkedFromInsert(db: Db, done: set<HandoffId>, h: HandoffId, u: TxId)
    requires h in db.handoffs
    ensures LinkedFrom(db, done + {h}, u) <==> LinkedFrom(db, done, u) || u == db.handoffs[h].transactionId
  {
    if LinkedFrom(db, done + {h}, u) && u != db.handoffs[h].transactionId {
      var k :| k in done + {h} && k in db.handoffs && db.handoffs[k].transactionId == u;
      assert k in done;
    }
  }

  lemma NothingExpiredYet(db: Db)
    requires WellFormed(db)
    ensures ExpiredUpTo(db, {}) == db
  {
    assert ExpiredUpTo(db, {}).txs == db.txs;
  }

  lemma CancelledTxsSnoc(db: Db, order: seq<HandoffId>, h: HandoffId)
    requires WellFormed(db) && (forall k :: k in order ==> k in db.handoffs) && h in db.handoffs
    ensures var t := db.handoffs[h].transactionId;
      CancelledTxs(db, order + [h]) ==
        CancelledTxs(db, order) + if IsOpen(db.txs[t].status) && HasGatewayRefs(db.txs[t]) then [t] else []
  {
    assert (order + [h])[..|order|] == order;
  }

  lemma CancelsOfSnoc(db: Db, ts: seq<TxId>, entries: seq<Entry>, t: TxId, e: Entry)
    requires forall u :: u in ts ==> u in db.txs && HasGatewayRefs(db.txs[u])
    requires t in db.txs && HasGatewayRefs(db.txs[t])
    requires CancelsOf(db, ts, entries) && e.call == CancelOf(db.txs[t])
    ensures CancelsOf(db, ts + [t], entries + [e])
  {
  }

  /** Extending the processed prefix of `ids` by one element. */
  lemma PrefixStep<T>(ids: seq<T>, i: nat)
    requires Distinct(ids) && i < |ids|
    ensures ids[..i + 1] == ids[..i] + [ids[i]]
    ensures Elements(ids[..i + 1]) == Elements(ids[..i]) + {ids[i]}
    ensures ids[i] !in Elements(ids[..i])
  {
    assert ids[..i + 1] == ids[..i] + [ids[i]];
  }

  /**
    Regrouping the gateway log after one more step of the sweep. Stated as a
    lemma so that the loop of `ExpireOldHandoffs` gets this one instance
    instead of searching for it.
   */
  lemma AppendSeq<T>(a: seq<T>, b: seq<T>, c: seq<T>)
    ensures a + (b + c) == (a + b) + c
  {
  }

  /**
    The loop body for one selected handoff whose transaction `t` the query
    read as `tx`: an open transaction becomes EXPIRED, and when it has both
    gateway references its payment hold is cancelled. `sentNow` is what the
    gateway logged.
   */
  method ExpireHandoff(db: Store, gw: Adapter, t: TxId, tx: Transaction) returns (ghost sentNow: seq<Entry>)
    requires t in db.txs
    modifies db, gw
    ensures db.Snapshot() == if IsOpen(tx.status) then WithStatus(old(db.Snapshot()), t, Expired) else old(db.Snapshot())
    ensures gw.log == old(gw.log) + sentNow
    ensures IsOpen(tx.status) && HasGatewayRefs(tx) ==> |sentNow| == 1 && sentNow[0].call == CancelOf(tx)
    ensures !(IsOpen(tx.status) && HasGatewayRefs(tx)) ==> sentNow == []
  {
    sentNow := [];
    if tx.status == Pending || tx.status == Authorized {
      db.SetStatus(t, Expired);
      if Present(tx.paymentIntentId) && Present(tx.connectAccountId) {
        // a failed cancel is logged and the loop goes on
        var ok := gw.CancelPaymentIntent(tx.paymentIntentId.value, tx.connectAccountId.value);
        sentNow := [Entry(CancelOf(tx), ok)];
      }
    }
  }

  /**
    One iteration of the sweep, on values: processing the `i`-th handoff of
    the query's order from state `cur` yields the state the first `i + 1`
    handoffs call for.
   */
  lemma SweepStateStep(snap: Db, ids: seq<HandoffId>, i: nat, cur: Db, next: Db)
    requires WellFormed(snap) && Distinct(ids) && i < |ids| && forall h :: h in ids ==> h in snap.handoffs
    requires cur == ExpiredUpTo(snap, Elements(ids[..i]))
    requires var t := snap.handoffs[ids[i]].transactionId;
      next == if IsOpen(TxOf(snap, ids[i]).status) then WithStatus(cur, t, Expired) else cur
    ensures next == ExpiredUpTo(snap, Elements(ids[..i + 1]))
  {
    PrefixStep(ids, i);
    NotYetLinked(snap, Elements(ids[..i]), ids[i]);
    ExpireOne(snap, Elements(ids[..i]), ids[i]);
  }

  /** The same iteration for the gateway: the calls it adds are those the `i`-th handoff calls for. */
  lemma SweepCallsStep(snap: Db, ids: seq<HandoffId>, i: nat, sent: seq<Entry>, sentNow: seq<Entry>)
    requires WellFormed(snap) && i < |ids| && forall h :: h in ids ==> h in snap.handoffs
    requires CancelsOf(snap, CancelledTxs(snap, ids[..i]), sent)
    requires var tx := TxOf(snap, ids[i]);
      if IsOpen(tx.status) && HasGatewayRefs(tx) then |sentNow| == 1 && sentNow[0].call == CancelOf(tx)
      else sentNow == []
    ensures CancelsOf(snap, CancelledTxs(snap, ids[..i + 1]), sent + sentNow)
  {
    assert ids[..i + 1] == ids[..i] + [ids[i]];
    CancelledTxsSnoc(snap, ids[..i], ids[i]);
    if sentNow != [] {
      assert sentNow == [sentNow[0]];
      CancelsOfSnoc(snap, CancelledTxs(snap, ids[..i]), sent, snap.handoffs[ids[i]].transactionId, sentNow[0]);
    }
  }

  /**
    The sweep against the store and the gateway. It returns the number of
    selected handoffs, not the number of transactions it expired; `order` is
    the order in which the query returned them, and `sent` the gateway calls
    the sweep issued.
   */
  method ExpireOldHandoffs(db: Store, gw: Adapter, now: int)
    returns (count: nat, ghost order: seq<HandoffId>, ghost sent: seq<Entry>)
    requires db.Valid()
    modifies db, gw
    ensures db.Snapshot() == Swept(old(db.Snapshot()), now)
    ensures count == |Selected(old(db.Snapshot()), now)|
    ensures Distinct(order) && Elements(order) == Selected(old(db.Snapshot()), now)
    ensures gw.log == old(gw.log) + sent
    ensures CancelsOf(old(db.Snapshot()), CancelledTxs(old(db.Snapshot()), order), sent)
    ensures db.Valid()
  {
    var snap := db.Snapshot();
    ghost var log0 := gw.log;
    var ids := InSomeOrder(Selected(snap, now));
    assert forall h :: h in ids ==> h in snap.handoffs;
    NothingExpiredYet(snap);
    sent := [];
    for i := 0 to |ids|
      invariant db.Snapshot() == ExpiredUpTo(snap, Elements(ids[..i]))
      invariant gw.log == log0 + sent
      invariant CancelsOf(snap, CancelledTxs(snap, ids[..i]), sent)
    {
      var h := ids[i];
      ghost var cur := db.Snapshot();
      var sentNow := ExpireHandoff(db, gw, snap.handoffs[h].transactionId, TxOf(snap, h));
      SweepStateStep(snap, ids, i, cur, db.Snapshot());
      SweepCallsStep(snap, ids, i, sent, sentNow);
      AppendSeq(log0, sent, sentNow);
      sent := sent + sentNow;
    }
    assert ids[..|ids|] == ids;
    count := |ids|;
    order := ids;
  }
}
