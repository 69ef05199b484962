/**
 The order fulfilment protocol at transaction granularity: any number of order sagas, reaper and
 reconciliation tasks and provider requests, interleaved freely. Each database transaction is one
 step; a saga may crash between any two of its steps, and so may a job.
 */
module Protocol {
  import opened Wrappers
  import opened Books
  import opened Orders
  import opened Tables

  const MAX_ATTEMPTS := 3
  const RECONCILIATION_GRACE_MS := 2 * 60_000

  /** What a request body asks for, before a warehouse is chosen. */
  datatype Cart = Cart(customer: nat, totalCents: int, lines: seq<OrderLine>)

  datatype SagaResult = OrderConfirmed | PaymentDeclined | ProviderUnavailable | RaceLost(unmet: set<ProductId>)

  /** Where a saga stands. Phase 1 is Reserving, Phase 2 is Reserved to Answered, Phase 3 is Settling. */
  datatype Phase =
    | Reserving(cart: Cart, rest: seq<WarehouseId>, unmet: set<ProductId>)
    | Reserved
    | Charging(sent: nat)
    | Answered(status: PaymentStatus)
    | Settling(status: PaymentStatus)
    | Finished(result: SagaResult)
    | Crashed

  datatype ChargeStatus = Approved | Refused

  /** One order picked up by a job, with the payment row it saw and the provider's answer so far. */
  datatype JobKind = Reap | Reconcile
  datatype Task = Task(kind: JobKind, order: OrderId, sawPayment: bool, answer: Option<PaymentStatus>)

  /** The charge key is a function of the order, so `wire` and `records` are indexed by order. */
  datatype State = State(tables: Tables, sagas: map<OrderId, Phase>, wire: map<OrderId, nat>,
                         records: map<OrderId, ChargeStatus>, tasks: map<nat, Task>, now: int)

  /** Clocks of different processes disagree, so time may also step back. */
  datatype Step =
    | Tick(ms: int)
    | StartSaga(order: OrderId, cart: Cart, candidates: seq<WarehouseId>)
    | TryReserve(order: OrderId, lockTimeout: bool)
    | SavePayment(order: OrderId)
    | SendPost(order: OrderId)
    | LandPost(order: OrderId, verdict: Option<ChargeStatus>)
    | LosePost(order: OrderId)
    | ChargeReturns(order: OrderId, status: PaymentStatus)
    | SaveResult(order: OrderId)
    | SettleSaga(order: OrderId)
    | CrashSaga(order: OrderId)
    | SelectOrder(task: nat, kind: JobKind, order: OrderId)
    | QueryStatus(task: nat, answer: PaymentStatus)
    | ResolveTask(task: nat)
    | DropTask(task: nat)
    | ProviderRestart

  function CommandFor(cart: Cart, o: OrderId, w: WarehouseId): ReserveCommand {
    ReserveCommand(o, cart.customer, cart.totalCents, w, cart.lines)
  }

  function Wire(s: State, o: OrderId): nat {
    if o in s.wire then s.wire[o] else 0
  }

  /** The reaper's selection: pending past its reservation. */
  predicate Expired(s: State, o: OrderId) {
    && o in s.tables.orders && s.tables.orders[o].status == PendingPayment
    && s.tables.orders[o].expiresAt.Some? && s.tables.orders[o].expiresAt.value < s.now
  }

  /** Reconciliation's selection: no final outcome recorded, and past the grace period. */
  predicate Unsettled(s: State, o: OrderId) {
    && o in s.tables.payments && s.tables.payments[o].settledAt.None?
    && s.tables.payments[o].status in {Pending, Unknown}
    && s.tables.payments[o].createdAt + RECONCILIATION_GRACE_MS < s.now
  }

  predicate Selectable(s: State, kind: JobKind, o: OrderId) {
    match kind
    case Reap => Expired(s, o)
    case Reconcile => Unsettled(s, o)
  }

  /** What charge() may answer: final outcomes only from the provider's record, UNKNOWN at any time. */
  predicate GatewayMayAnswer(records: map<OrderId, ChargeStatus>, o: OrderId, status: PaymentStatus) {
    || status == Unknown
    || (status == Captured && o in records && records[o] == Approved)
    || (status == Declined && o in records && records[o] == Refused)
  }

  /** What getStatus() may answer: as charge(), and FAILED exactly for a key the provider never stored. */
  predicate StatusMayAnswer(records: map<OrderId, ChargeStatus>, o: OrderId, status: PaymentStatus) {
    GatewayMayAnswer(records, o, status) || (status == Failed && o !in records)
  }

  datatype Resolution = Resolve(payment: Option<PaymentStatus>, action: Action) | LeaveAlone

  /** resolveReservation and resolvePayment: which settlement, if any, a task's findings lead to. */
  function Decide(task: Task): Resolution {
    if task.kind == Reap && !task.sawPayment then Resolve(None, Cancel("RESERVATION_EXPIRED_NO_PAYMENT"))
    else if task.answer == Some(Captured) then Resolve(task.answer, Confirm)
    else if task.answer == Some(Declined) then Resolve(task.answer, Fail)
    else if task.kind == Reap && task.answer == Some(Failed)
    then Resolve(task.answer, Cancel("RESERVATION_EXPIRED_NOT_CHARGED"))
    else LeaveAlone
  }

  function PhaseThree(status: PaymentStatus): (Action, SagaResult) {
    if status == Captured then (Confirm, OrderConfirmed) else (Fail, PaymentDeclined)
  }

  predicate Enabled(s: State, step: Step) {
    match step
    case Tick(_) => true
    case StartSaga(o, cart, candidates) => o !in s.sagas && |candidates| > 0
    case TryReserve(o, _) => o in s.sagas && s.sagas[o].Reserving? && |s.sagas[o].rest| > 0
    case SavePayment(o) => o in s.sagas && s.sagas[o].Reserved? && o in s.tables.orders
    case SendPost(o) => o in s.sagas && s.sagas[o].Charging? && s.sagas[o].sent < MAX_ATTEMPTS
    case LandPost(o, _) => Wire(s, o) > 0
    case LosePost(o) => Wire(s, o) > 0
    case ChargeReturns(o, status) => o in s.sagas && s.sagas[o].Charging? && GatewayMayAnswer(s.records, o, status)
    case SaveResult(o) => o in s.sagas && s.sagas[o].Answered? && o in s.tables.payments
    case SettleSaga(o) => o in s.sagas && s.sagas[o].Settling?
    case CrashSaga(o) => o in s.sagas && !s.sagas[o].Finished?
    case SelectOrder(k, kind, o) => k !in s.tasks && Selectable(s, kind, o)
    case QueryStatus(k, answer) =>
      && k in s.tasks && s.tasks[k].sawPayment && s.tasks[k].answer.None?
      && StatusMayAnswer(s.records, s.tasks[k].order, answer)
    case ResolveTask(k) => k in s.tasks && Decide(s.tasks[k]).Resolve?
    case DropTask(k) => k in s.tasks
    case ProviderRestart => true
  }

  function AfterSettle(t: Tables, o: OrderId, payment: Option<PaymentStatus>, action: Action, now: int): Tables {
    match SettleTx(t, o, payment, action, now)
    case Ok(r) => r.0
    case Err(_) => t
  }

  /** One attempt of the failover loop: its transaction commits, or the next candidate is up. */
  function AfterAttempt(s: State, o: OrderId, lockTimeout: bool): State
    requires Enabled(s, TryReserve(o, lockTimeout))
  {
    var saga := s.sagas[o];
    match ReserveTx(s.tables, CommandFor(saga.cart, o, saga.rest[0]), lockTimeout, s.now)
    case Ok(t) => s.(tables := t, sagas := s.sagas[o := Reserved])
    case Err(e) =>
      if !e.InsufficientStock? then s.(sagas := s.sagas[o := Crashed])
      else
        var unmet := saga.unmet + set p | p in e.products;
        s.(sagas := s.sagas[o := if |saga.rest| == 1 then Finished(RaceLost(unmet))
                                 else Reserving(saga.cart, saga.rest[1..], unmet)])
  }

  function Apply(s: State, step: Step): State
    requires Enabled(s, step)
  {
    match step
    case Tick(ms) => s.(now := s.now + ms)
    case StartSaga(o, cart, candidates) => s.(sagas := s.sagas[o := Reserving(cart, candidates, {})])
    case TryReserve(o, lockTimeout) => AfterAttempt(s, o, lockTimeout)
    case SavePayment(o) => s.(tables := SavePending(s.tables, o, s.now), sagas := s.sagas[o := Charging(0)])
    case SendPost(o) => s.(sagas := s.sagas[o := Charging(s.sagas[o].sent + 1)], wire := s.wire[o := Wire(s, o) + 1])
    case LandPost(o, verdict) =>
      s.(wire := s.wire[o := Wire(s, o) - 1],
         records := if o !in s.records && verdict.Some? then s.records[o := verdict.value] else s.records)
    case LosePost(o) => s.(wire := s.wire[o := Wire(s, o) - 1])
    case ChargeReturns(o, status) => s.(sagas := s.sagas[o := Answered(status)])
    case SaveResult(o) =>
      var status := s.sagas[o].status;
      s.(tables := SaveCharge(s.tables, o, status, s.now),
         sagas := s.sagas[o := if IsDefinitive(status) then Settling(status) else Finished(ProviderUnavailable)])
    case SettleSaga(o) =>
      var (action, result) := PhaseThree(s.sagas[o].status);
      s.(tables := AfterSettle(s.tables, o, None, action, s.now), sagas := s.sagas[o := Finished(result)])
    case CrashSaga(o) => s.(sagas := s.sagas[o := Crashed])
    case SelectOrder(k, kind, o) => s.(tasks := s.tasks[k := Task(kind, o, o in s.tables.payments, None)])
    case QueryStatus(k, answer) => s.(tasks := s.tasks[k := s.tasks[k].(answer := Some(answer))])
    case ResolveTask(k) =>
      var decision := Decide(s.tasks[k]);
      s.(tables := AfterSettle(s.tables, s.tasks[k].order, decision.payment, decision.action, s.now),
         tasks := map j | j in s.tasks && j != k :: s.tasks[j])
    case DropTask(k) => s.(tasks := map j | j in s.tasks && j != k :: s.tasks[j])
    case ProviderRestart => s.(records := map[])
  }

  ghost predicate Init(s: State, opening: map<StockKey, int>) {
    && s.tables.orders == map[] && s.tables.items == map[] && s.tables.payments == map[]
    && s.tables.jobs == multiset{} && s.tables.books.ledger == []
    && s.tables.books.stock.Keys == opening.Keys
    && (forall key | key in opening :: opening[key] >= 0 && s.tables.books.stock[key] == Balance(opening[key], 0))
    && s.sagas == map[] && s.wire == map[] && s.records == map[] && s.tasks == map[]
  }

  /** What validation admits: a cart of distinct products in positive quantities. */
  ghost predicate Admissible(step: Step) {
    step.StartSaga? ==> ValidLines(step.cart.lines)
  }

  /** The saga can no longer send a charge or write the payment row, and no request is under way. */
  predicate Quiescent(s: State, o: OrderId) {
    && o in s.sagas
    && (s.sagas[o].Settling? || s.sagas[o].Finished? || s.sagas[o].Crashed?)
    && Wire(s, o) == 0
  }

  /** The grace period and the reservation TTL outlast Phase 2: what a job can select is quiescent. */
  ghost predicate Timely(s: State) {
    forall kind, o | Selectable(s, kind, o) :: Quiescent(s, o)
  }

  /** states[i + 1] is states[i] after steps[i]. */
  ghost predicate Run(states: seq<State>, steps: seq<Step>, opening: map<StockKey, int>) {
    && |states| == |steps| + 1
    && Init(states[0], opening)
    && forall i | 0 <= i < |steps| ::
         Admissible(steps[i]) && Enabled(states[i], steps[i]) && states[i + 1] == Apply(states[i], steps[i])
  }
}
