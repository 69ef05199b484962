/** The one path that settles an order, shared by the saga, the reaper and reconciliation. */
module OrderSettlement {
  import opened Wrappers
  import opened Books
  import opened Orders
  import opened Tables
  import opened Database
  import Inventory = InventoryService

  /** EVENT_ROUTING */
  function RoutesFor(eventType: string): Option<seq<Queue>> {
    if eventType == "order.confirmed" then Some(ORDER_CONFIRMED_ROUTES) else None
  }

  /** One job per routed queue, through the caller's transaction; an event without a route is an error. */
  method Publish(db: Database, eventType: string, o: OrderId) returns (routed: bool)
    modifies db`jobs
    ensures routed <==> RoutesFor(eventType).Some?
    ensures db.jobs == old(db.jobs) + if routed then Fanout(RoutesFor(eventType).value, o) else multiset{}
  {
    var targets := RoutesFor(eventType);
    if targets.None? {
      return false;
    }
    var queues := targets.value;
    for i := 0 to |queues|
      invariant db.jobs + Fanout(queues[i..], o) == old(db.jobs) + Fanout(queues, o)
    {
      assert queues[i..][0] == queues[i] && queues[i..][1..] == queues[i + 1..];
      db.jobs := db.jobs + multiset{Job(queues[i], o)};
    }
    routed := true;
  }

  /** The payment row of an unresolved charge takes the provider's answer; a resolved one is left alone. */
  method UpdatePayment(db: Database, o: OrderId, resolution: Option<PaymentStatus>, now: int)
    modifies db`payments
    ensures db.payments == ResolvePayment(old(db.payments), o, resolution, now)
  {
    if resolution.Some? && o in db.payments && db.payments[o].status in {Pending, Unknown} {
      db.payments := db.payments[o := db.payments[o].(status := resolution.value, settledAt := Some(now))];
    }
  }

  /** Only the stock rows are locked under a timeout; a settlement that gets so far and waits too long throws. */
  function SettleInTime(t: Tables, o: OrderId, resolution: Option<PaymentStatus>, action: Action, lockTimeout: bool,
                        now: int): Result<(Tables, Outcome), TxError>
  {
    if lockTimeout && o in t.orders && t.orders[o].status == PendingPayment && t.orders[o].warehouse.Some?
    then Err(LockTimeout)
    else SettleTx(t, o, resolution, action, now)
  }

  function CloseInTime(b: Books, o: OrderId, warehouse: Option<WarehouseId>, lines: seq<OrderLine>, action: Action,
                       lockTimeout: bool): Result<Books, TxError>
  {
    if lockTimeout && warehouse.Some? then Err(LockTimeout) else ClosedBooks(b, o, warehouse, lines, action)
  }

  lemma SettleSteps(t: Tables, o: OrderId, resolution: Option<PaymentStatus>, action: Action, lockTimeout: bool,
                    now: int)
    requires o in t.orders && t.orders[o].status == PendingPayment
    ensures var lines := if o in t.items then t.items[o] else [];
            var closed := CloseInTime(t.books, o, t.orders[o].warehouse, lines, action, lockTimeout);
            var row := SettledRow(t.orders[o], action, now);
            var fanout := if action == Confirm then Fanout(ORDER_CONFIRMED_ROUTES, o) else multiset{};
            SettleInTime(t, o, resolution, action, lockTimeout, now) ==
            if closed.Err? then Err(closed.error)
            else if row.Err? then Err(IllegalTransition)
            else Ok((Tables(t.orders[o := row.value], t.items, ResolvePayment(t.payments, o, resolution, now),
                            closed.value, t.jobs + fanout), Settled))
  {
  }

  method ApplyTransition(order: Order, action: Action, now: int) returns (ok: bool)
    modifies order
    ensures match SettledRow(old(order.ToRow(now)), action, now)
            case Ok(row) => ok && order.ToRow(now) == row
            case Err(_) => !ok
  {
    match action {
      case Confirm =>
        ok := order.MarkPaid();
        if ok {
          ok := order.Confirm(now);
        }
      case Fail =>
        ok := order.MarkPaymentFailed();
      case Cancel(reason) =>
        ok := order.Cancel(reason, now);
    }
  }

  /**
   settle, with the caller's transition. The tables afterwards are those of the settlement
   transaction, or, where anything throws, those before it.
   */
  method Settle(db: Database, o: OrderId, resolution: Option<PaymentStatus>, action: Action, lockTimeout: bool,
                now: int)
    returns (r: Result<Outcome, TxError>)
    requires o in db.items ==> Distinct(db.items[o])
    modifies db
    ensures match SettleInTime(old(db.Contents()), o, resolution, action, lockTimeout, now)
            case Ok(done) => r == Ok(done.1) && db.Contents() == done.0
            case Err(e) => r == Err(e) && db.Contents() == old(db.Contents())
  {
    var before := db.Contents();
    if o !in db.orders {
      return Err(OrderNotFound);
    }
    var order := new Order(db.orders[o]);
    if order.status != PendingPayment {
      return Ok(AlreadySettled);
    }
    RowUnloaded(before.orders[o], now, order.ToRow(now), action);
    SettleSteps(before, o, resolution, action, lockTimeout, now);
    UpdatePayment(db, o, resolution, now);
    var lines := if o in db.items then db.items[o] else [];
    var error := RunTransition(db, o, order, lines, action, lockTimeout, now);
    if error.Some? {
      db.Restore(before);
      return Err(error.value);
    }
    r := Ok(Settled);
  }

  /** Loading a row and writing it back re-stamps createdAt and nothing else, which no transition looks at. */
  lemma RowUnloaded(row: OrderRow, now: int, unloaded: OrderRow, action: Action)
    requires unloaded == row.(createdAt := now)
    ensures SettledRow(unloaded, action, now) == SettledRow(row, action, now)
  {
  }

  /** The transition a caller hands to settle: inventory, order row and, on confirmation, the jobs. */
  method RunTransition(db: Database, o: OrderId, order: Order, lines: seq<OrderLine>, action: Action,
                       lockTimeout: bool, now: int)
    returns (error: Option<TxError>)
    requires Distinct(lines)
    modifies db`stock, db`ledger, db`orders, db`jobs, order
    ensures var row := SettledRow(old(order.ToRow(now)), action, now);
            var closed := CloseInTime(old(db.CurrentBooks()), o, order.warehouse, lines, action, lockTimeout);
            if closed.Err? then error == Some(closed.error)
            else if row.Err? then error == Some(IllegalTransition)
            else
              && error == None
              && db.CurrentBooks() == closed.value
              && db.orders == old(db.orders)[o := row.value]
              && db.jobs == old(db.jobs) + if action == Confirm then Fanout(ORDER_CONFIRMED_ROUTES, o) else multiset{}
  {
    error := CloseInventory(db, o, order.warehouse, lines, action, lockTimeout);
    if error.Some? {
      return;
    }
    var ok := ApplyTransition(order, action, now);
    if !ok {
      return Some(IllegalTransition);
    }
    db.orders := db.orders[o := order.ToRow(now)];
    if action == Confirm {
      var routed := Publish(db, "order.confirmed", o);
    }
  }

  method CloseInventory(db: Database, o: OrderId, warehouse: Option<WarehouseId>, lines: seq<OrderLine>, action: Action,
                        lockTimeout: bool)
    returns (error: Option<TxError>)
    requires Distinct(lines)
    modifies db`stock, db`ledger
    ensures match CloseInTime(old(db.CurrentBooks()), o, warehouse, lines, action, lockTimeout)
            case Err(e) => error == Some(e)
            case Ok(books) => error == None && db.CurrentBooks() == books
  {
    error := None;
    if warehouse.Some? {
      if action == Confirm {
        error := Inventory.Commit(db, o, warehouse.value, Products(lines), lockTimeout);
      } else {
        error := Inventory.Release(db, o, warehouse.value, Products(lines), lockTimeout);
      }
    }
  }

  method ConfirmCaptured(db: Database, o: OrderId, resolution: Option<PaymentStatus>, lockTimeout: bool, now: int)
    returns (r: Result<Outcome, TxError>)
    requires o in db.items ==> Distinct(db.items[o])
    modifies db
    ensures match SettleInTime(old(db.Contents()), o, resolution, Confirm, lockTimeout, now)
            case Ok(done) => r == Ok(done.1) && db.Contents() == done.0
            case Err(e) => r == Err(e) && db.Contents() == old(db.Contents())
  {
    r := Settle(db, o, resolution, Confirm, lockTimeout, now);
  }

  method FailDeclined(db: Database, o: OrderId, resolution: Option<PaymentStatus>, lockTimeout: bool, now: int)
    returns (r: Result<Outcome, TxError>)
    requires o in db.items ==> Distinct(db.items[o])
    modifies db
    ensures match SettleInTime(old(db.Contents()), o, resolution, Fail, lockTimeout, now)
            case Ok(done) => r == Ok(done.1) && db.Contents() == done.0
            case Err(e) => r == Err(e) && db.Contents() == old(db.Contents())
  {
    r := Settle(db, o, resolution, Fail, lockTimeout, now);
  }

  method CancelUnpaid(db: Database, o: OrderId, reason: string, resolution: Option<PaymentStatus>, lockTimeout: bool,
                      now: int)
    returns (r: Result<Outcome, TxError>)
    requires o in db.items ==> Distinct(db.items[o])
    modifies db
    ensures match SettleInTime(old(db.Contents()), o, resolution, Cancel(reason), lockTimeout, now)
            case Ok(done) => r == Ok(done.1) && db.Contents() == done.0
            case Err(e) => r == Err(e) && db.Contents() == old(db.Contents())
  {
    r := Settle(db, o, resolution, Cancel(reason), lockTimeout, now);
  }
}
