/**
 The shared tables and, on their values, the two transactions of the service: reserving a new
 order at one warehouse, and settling an order. Each commits whole or leaves the tables alone.
 */
module Tables {
  import opened Wrappers
  import opened Books
  import opened Orders

  const RESERVATION_TTL_MS := 15 * 60_000

  datatype PaymentStatus = Pending | Authorized | Captured | Declined | Failed | Unknown | Refunded

  /** One row per order: a second charge attempt does not exist, so the order names its payment. */
  datatype PaymentRow = PaymentRow(status: PaymentStatus, amountCents: int, settledAt: Option<int>, createdAt: int)

  datatype Queue = ShipmentCreate | CustomerNotify | AnalyticsRecord
  datatype Job = Job(queue: Queue, order: OrderId)

  /** EVENT_ROUTING['order.confirmed'] */
  const ORDER_CONFIRMED_ROUTES: seq<Queue> := [ShipmentCreate, CustomerNotify, AnalyticsRecord]

  datatype Tables = Tables(orders: map<OrderId, OrderRow>, items: map<OrderId, seq<OrderLine>>,
                           payments: map<OrderId, PaymentRow>, books: Books, jobs: multiset<Job>)

  // ---------- reserve ----------

  datatype ReserveCommand = ReserveCommand(order: OrderId, customer: nat, totalCents: int,
                                           warehouse: WarehouseId, lines: seq<OrderLine>)

  function Products(lines: seq<OrderLine>): seq<ProductId> {
    seq(|lines|, i requires 0 <= i < |lines| => lines[i].product)
  }

  /** UniqueProductIds on the request body. */
  ghost predicate Distinct(lines: seq<OrderLine>) {
    forall i, j | 0 <= i < j < |lines| :: lines[i].product != lines[j].product
  }

  /** What the request body's validation guarantees about its items. */
  ghost predicate ValidLines(lines: seq<OrderLine>) {
    && |lines| > 0
    && Distinct(lines)
    && forall i | 0 <= i < |lines| :: lines[i].quantity >= 1
  }

  function NewOrderRow(cmd: ReserveCommand, now: int): OrderRow {
    OrderRow(cmd.customer, cmd.totalCents, Some(cmd.warehouse), PendingPayment, None, None, None, None, now)
  }

  /** onBeforeReserve: the order and its items, inserted in the reservation's own transaction. */
  function InsertOrder(t: Tables, cmd: ReserveCommand, now: int): Tables {
    t.(orders := t.orders[cmd.order := NewOrderRow(cmd, now)], items := t.items[cmd.order := cmd.lines])
  }

  /** A lock timeout counts as every product being unavailable. */
  function ReserveTx(t: Tables, cmd: ReserveCommand, lockTimeout: bool, now: int): Result<Tables, TxError> {
    if cmd.order in t.orders then Err(DuplicateOrder)
    else if lockTimeout then Err(InsufficientStock(Products(cmd.lines)))
    else
      var unmet := Unmet(t.books.stock, cmd.warehouse, cmd.lines);
      if unmet != [] then Err(InsufficientStock(unmet))
      else
        match ReserveLines(t.books, cmd.order, cmd.warehouse, cmd.lines)
        case Err(e) => Err(e)
        case Ok(books) =>
          var row := NewOrderRow(cmd, now).(expiresAt := Some(now + RESERVATION_TTL_MS));
          var inserted := InsertOrder(t, cmd, now);
          Ok(inserted.(orders := inserted.orders[cmd.order := row], books := books))
  }

  // ---------- settle ----------

  datatype Action = Confirm | Fail | Cancel(reason: string)
  datatype Outcome = Settled | AlreadySettled

  function ClosingKind(action: Action): (kind: MovementKind)
    ensures kind != RESERVE
  {
    if action == Confirm then COMMIT else RELEASE
  }

  function TargetStatus(action: Action): OrderStatus {
    match action
    case Confirm => Confirmed
    case Fail => PaymentFailed
    case Cancel(_) => Cancelled
  }

  /** The order after the action's transitions, as the mapper writes it back. */
  function SettledRow(row: OrderRow, action: Action, now: int): Result<OrderRow, TxError> {
    match action
    case Confirm =>
      if CanTransition(row.status, Paid) && CanTransition(Paid, Confirmed)
      then Ok(row.(status := Confirmed, confirmedAt := Some(now), createdAt := now)) else Err(IllegalTransition)
    case Fail =>
      if CanTransition(row.status, PaymentFailed)
      then Ok(row.(status := PaymentFailed, createdAt := now)) else Err(IllegalTransition)
    case Cancel(reason) =>
      if CanTransition(row.status, Cancelled)
      then Ok(row.(status := Cancelled, cancelledAt := Some(now), reason := Some(reason), createdAt := now))
      else Err(IllegalTransition)
  }

  /** UPDATE payments ... WHERE status IN ('PENDING', 'UNKNOWN') */
  function ResolvePayment(payments: map<OrderId, PaymentRow>, o: OrderId, resolution: Option<PaymentStatus>,
                          now: int): map<OrderId, PaymentRow>
  {
    if resolution.Some? && o in payments && payments[o].status in {Pending, Unknown}
    then payments[o := payments[o].(status := resolution.value, settledAt := Some(now))]
    else payments
  }

  function Fanout(routes: seq<Queue>, o: OrderId): multiset<Job> {
    if routes == [] then multiset{}
    else multiset{Job(routes[0], o)} + Fanout(routes[1..], o)
  }

  /** commit or release, as the action asks, of every line at the order's warehouse. */
  function ClosedBooks(b: Books, o: OrderId, warehouse: Option<WarehouseId>, lines: seq<OrderLine>,
                       action: Action): Result<Books, TxError>
  {
    if warehouse.None? then Ok(b) else CloseLines(b, o, warehouse.value, Products(lines), ClosingKind(action))
  }

  function SettleTx(t: Tables, o: OrderId, resolution: Option<PaymentStatus>, action: Action,
                    now: int): Result<(Tables, Outcome), TxError>
  {
    if o !in t.orders then Err(OrderNotFound)
    else if t.orders[o].status != PendingPayment then Ok((t, AlreadySettled))
    else
      var lines := if o in t.items then t.items[o] else [];
      match ClosedBooks(t.books, o, t.orders[o].warehouse, lines, action)
      case Err(e) => Err(e)
      case Ok(books) =>
        match SettledRow(t.orders[o], action, now)
        case Err(e) => Err(e)
        case Ok(row) =>
          Ok((t.(orders := t.orders[o := row],
                 payments := ResolvePayment(t.payments, o, resolution, now),
                 books := books,
                 jobs := t.jobs + if action == Confirm then Fanout(ORDER_CONFIRMED_ROUTES, o) else multiset{}),
              Settled))
  }

  // ---------- the saga's own writes to payments ----------

  function SavePending(t: Tables, o: OrderId, now: int): Tables
    requires o in t.orders
  {
    t.(payments := t.payments[o := PaymentRow(Pending, t.orders[o].totalCents, None, now)])
  }

  predicate IsDefinitive(status: PaymentStatus) {
    status == Captured || status == Declined
  }

  /** The second save of Phase 2 overwrites the row, whatever it holds by then. */
  function SaveCharge(t: Tables, o: OrderId, status: PaymentStatus, now: int): Tables
    requires o in t.payments
  {
    var settledAt := if IsDefinitive(status) then Some(now) else None;
    t.(payments := t.payments[o := t.payments[o].(status := status, settledAt := settledAt)])
  }

  // ---------- what the tables must say about one order ----------

  /** Everything the ledger holds about one order line, oldest first. */
  function Entries(ledger: seq<Movement>, o: OrderId, p: ProductId): seq<Movement> {
    if ledger == [] then []
    else
      var m := ledger[|ledger| - 1];
      Entries(ledger[..|ledger| - 1], o, p) + if SameLine(m, o, p) then [m] else []
  }

  predicate Opens(m: Movement, o: OrderId, w: WarehouseId, line: OrderLine) {
    m.key == StockKey(w, line.product) && m.order == o && m.kind == RESERVE && m.delta == -line.quantity
  }

  /** The line was reserved once, as ordered, and closed once exactly as its order's status says. */
  predicate LineHistory(ledger: seq<Movement>, o: OrderId, w: WarehouseId, line: OrderLine, status: OrderStatus) {
    var es := Entries(ledger, o, line.product);
    && |es| >= 1 && Opens(es[0], o, w, line)
    && match status
       case PendingPayment => |es| == 1
       case Paid => false
       case Confirmed => |es| == 2 && es[1].key == es[0].key && es[1].kind == COMMIT && es[1].delta == 0
       case PaymentFailed => |es| == 2 && es[1].key == es[0].key && es[1].kind == RELEASE
         && es[1].delta == line.quantity
       case Cancelled => |es| == 2 && es[1].key == es[0].key && es[1].kind == RELEASE && es[1].delta == line.quantity
  }

  ghost predicate OrderAgrees(t: Tables, o: OrderId)
    requires o in t.orders
  {
    var row := t.orders[o];
    && o in t.items
    && ValidLines(t.items[o])
    && row.warehouse.Some?
    && row.expiresAt.Some?
    && (row.confirmedAt.Some? <==> row.status == Confirmed)
    && (row.cancelledAt.Some? <==> row.status == Cancelled)
    && (row.reason.Some? <==> row.status == Cancelled)
    && (forall i | 0 <= i < |t.items[o]| ::
         LineHistory(t.books.ledger, o, row.warehouse.value, t.items[o][i], row.status))
    && (forall p | p !in Products(t.items[o]) :: Entries(t.books.ledger, o, p) == [])
  }

  ghost predicate JobsAgree(t: Tables) {
    forall job :: t.jobs[job] == if job.order in t.orders && t.orders[job.order].status == Confirmed then 1 else 0
  }

  /** What every committed state satisfies. */
  ghost predicate Consistent(t: Tables, opening: map<StockKey, int>) {
    && Sound(t.books, opening)
    && (forall o | o in t.orders :: OrderAgrees(t, o))
    && (forall o, p | o !in t.orders :: Entries(t.books.ledger, o, p) == [])
    && t.items.Keys == t.orders.Keys
    && t.payments.Keys <= t.orders.Keys
    && JobsAgree(t)
  }
}
