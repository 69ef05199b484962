/** The saga's own database work, phase by phase. */
module CreateOrder {
  import opened Wrappers
  import opened Books
  import opened Orders
  import opened Tables
  import opened Database
  import opened Protocol
  import opened TransactionEffects
  import Breaker = CircuitBreaker
  import Gateway = PaymentGateway
  import Settlement = OrderSettlement

  /** Phase 2 before the call: the payment row exists, pending, before anything is sent. */
  method SaveInitialPayment(db: Database, o: OrderId, now: int)
    requires o in db.orders
    modifies db`payments
    ensures db.Contents() == SavePending(old(db.Contents()), o, now)
  {
    db.payments := db.payments[o := PaymentRow(Pending, db.orders[o].totalCents, None, now)];
  }

  /** Phase 2 after the call: the row is overwritten unconditionally. */
  method SaveChargeResult(db: Database, o: OrderId, status: PaymentStatus, now: int)
    requires o in db.payments
    modifies db`payments
    ensures db.Contents() == SaveCharge(old(db.Contents()), o, status, now)
  {
    var settledAt := if IsDefinitive(status) then Some(now) else None;
    db.payments := db.payments[o := db.payments[o].(status := status, settledAt := settledAt)];
  }

  /**
   Phase 2 as a whole. The pending row is there before anything is sent; meanwhile is what others have
   made of the tables by the time the charge returns, and that is what the result is written over.
   */
  method ChargeOrder(db: Database, breaker: Breaker.CircuitBreaker, o: OrderId, attempts: nat -> Gateway.Attempt,
                     random: nat -> real, meanwhile: Tables, sentAt: int, answeredAt: int)
    returns (result: Gateway.ChargeResult, calls: nat, whenSent: Tables)
    requires o in db.orders && o in meanwhile.payments
    requires forall k :: 0.0 <= random(k) < 1.0
    requires forall k :: 0 <= attempts(k).end - attempts(k).start <= Gateway.ATTEMPT_TIMEOUT_MS
    modifies db, breaker
    ensures whenSent == SavePending(old(db.Contents()), o, sentAt)
    ensures Gateway.LastOf(attempts, breaker.options, calls, Gateway.MAX_ATTEMPTS)
    ensures result == Gateway.ChargeOutcome(Gateway.OutcomeOf(attempts(calls), breaker.options))
    ensures db.Contents() == SaveCharge(meanwhile, o, result.status, answeredAt)
  {
    SaveInitialPayment(db, o, sentAt);
    whenSent := db.Contents();
    var elapsed;
    result, calls, elapsed := Gateway.Charge(breaker, attempts, random, Gateway.ATTEMPT_TIMEOUT_MS,
                                             Gateway.MAX_ATTEMPTS, Gateway.BACKOFF_BASE_MS);
    db.Restore(meanwhile);
    SaveChargeResult(db, o, result.status, answeredAt);
  }

  /**
   Phase 3. A captured or declined charge settles the order without touching the payment row; an
   unknown one leaves every table alone.
   */
  method SettleOrder(db: Database, o: OrderId, status: PaymentStatus, lockTimeout: bool, now: int)
    returns (r: Result<SagaResult, TxError>)
    requires o in db.items ==> Distinct(db.items[o])
    modifies db
    ensures !IsDefinitive(status) ==> r == Ok(ProviderUnavailable) && db.Contents() == old(db.Contents())
    ensures IsDefinitive(status) ==>
              var (action, result) := PhaseThree(status);
              match Settlement.SettleInTime(old(db.Contents()), o, None, action, lockTimeout, now)
              case Ok(done) => r == Ok(result) && db.Contents() == done.0
              case Err(e) => r == Err(e) && db.Contents() == old(db.Contents())
  {
    if status == Captured {
      var settled := Settlement.ConfirmCaptured(db, o, None, lockTimeout, now);
      if settled.Err? {
        return Err(settled.error);
      }
      return Ok(OrderConfirmed);
    }
    if status == Declined {
      var settled := Settlement.FailDeclined(db, o, None, lockTimeout, now);
      if settled.Err? {
        return Err(settled.error);
      }
      return Ok(PaymentDeclined);
    }
    r := Ok(ProviderUnavailable);
  }

  /** The protocol's view of Phase 3: a settlement that comes too late for its locks ends in a crash of the saga. */
  lemma SettlementIsAStep(s: State, opening: map<StockKey, int>, o: OrderId, lockTimeout: bool)
    requires Consistent(s.tables, opening) && Enabled(s, SettleSaga(o)) && o in s.tables.orders
    ensures var action := PhaseThree(s.sagas[o].status).0;
            var tried := Settlement.SettleInTime(s.tables, o, None, action, lockTimeout, s.now);
            var step := if lockTimeout then CrashSaga(o) else SettleSaga(o);
            && Enabled(s, step)
            && Apply(s, step).tables == if tried.Ok? then tried.value.0 else s.tables
  {
    assert OrderAgrees(s.tables, o);
  }

  /** Phase 3 of a pending order, told by its rows; the payment row is the second save's business. */
  lemma PhaseThreeMeans(t: Tables, opening: map<StockKey, int>, o: OrderId, status: PaymentStatus, now: int)
    requires Consistent(t, opening) && o in t.orders && t.orders[o].status == PendingPayment
    requires status == Captured || status == Declined
    ensures t.orders[o].warehouse.Some? && o in t.items
    ensures var tried := Settlement.SettleInTime(t, o, None, PhaseThree(status).0, false, now);
            && tried.Ok?
            && (status == Captured ==> ConfirmedAs(t, tried.value.0, o, None, now))
            && (status == Declined ==> FailedAs(t, tried.value.0, o, None, now))
    ensures Settlement.SettleInTime(t, o, None, PhaseThree(status).0, true, now) == Err(LockTimeout)
  {
    assert OrderAgrees(t, o);
    SettlementWrites(t, opening, o, None, if status == Captured then Confirm else Fail, now);
  }

  /** What the two saves of Phase 2 leave of the payment row: open until the outcome is final. */
  lemma SavesMean(t: Tables, o: OrderId, sentAt: int, meanwhile: Tables, status: PaymentStatus, answeredAt: int)
    requires o in t.orders && o in meanwhile.payments
    ensures SavePending(t, o, sentAt).payments ==
            t.payments[o := PaymentRow(Pending, t.orders[o].totalCents, None, sentAt)]
    ensures var after := SaveCharge(meanwhile, o, status, answeredAt).payments;
            && after.Keys == meanwhile.payments.Keys
            && (forall q | q in after && q != o :: after[q] == meanwhile.payments[q])
            && after[o].status == status
            && after[o].settledAt == (if status == Captured || status == Declined then Some(answeredAt) else None)
            && after[o].amountCents == meanwhile.payments[o].amountCents
            && after[o].createdAt == meanwhile.payments[o].createdAt
  {
  }
}
