/**
 The same transactions taken row lock by row lock. A transaction reads each row as it locks it,
 computes its writes from what it has read and nothing else, and installs them when it commits;
 until then nobody sees them. Any number of transactions interleave.
 */
module Locking {
  import opened Wrappers
  import opened Books
  import opened Orders
  import opened Tables
  import opened Protocol

  /** The order's lock also guards its items and its ledger entries, which only its holder appends. */
  datatype Lock = OrderLock(order: OrderId) | PaymentLock(order: OrderId) | StockLock(key: StockKey)

  datatype Value =
    | OrderValue(row: Option<OrderRow>, items: Option<seq<OrderLine>>, moves: seq<Movement>)
    | PaymentValue(payment: Option<PaymentRow>)
    | StockValue(balance: Option<Balance>)

  datatype Work =
    | ReserveWork(cmd: ReserveCommand, now: int)
    | SettleWork(order: OrderId, payment: Option<PaymentStatus>, action: Action, now: int)
    | InsertPaymentWork(order: OrderId, now: int)
    | SaveChargeWork(order: OrderId, status: PaymentStatus, now: int)

  function OrderOf(work: Work): OrderId {
    if work.ReserveWork? then work.cmd.order else work.order
  }

  /** What the transaction does when it runs alone; one that throws changes nothing. */
  function Effect(t: Tables, work: Work): Tables {
    match work
    case ReserveWork(cmd, now) =>
      (match ReserveTx(t, cmd, false, now)
       case Ok(after) => after
       case Err(_) => t)
    case SettleWork(o, payment, action, now) => AfterSettle(t, o, payment, action, now)
    case InsertPaymentWork(o, now) => if o in t.orders && o !in t.payments then SavePending(t, o, now) else t
    case SaveChargeWork(o, status, now) => if o in t.payments then SaveCharge(t, o, status, now) else t
  }

  // ---------- rows and locks ----------

  function Find<K, V>(m: map<K, V>, k: K): Option<V> {
    if k in m then Some(m[k]) else None
  }

  function MovesOf(ledger: seq<Movement>, o: OrderId): seq<Movement> {
    if ledger == [] then []
    else
      var m := ledger[|ledger| - 1];
      MovesOf(ledger[..|ledger| - 1], o) + if m.order == o then [m] else []
  }

  function ValueOf(t: Tables, l: Lock): Value {
    match l
    case OrderLock(o) => OrderValue(Find(t.orders, o), Find(t.items, o), MovesOf(t.books.ledger, o))
    case PaymentLock(o) => PaymentValue(Find(t.payments, o))
    case StockLock(key) => StockValue(Find(t.books.stock, key))
  }

  /** ORDER BY product_id over a set of ids: ascending, each once. */
  function Insert(p: ProductId, s: seq<ProductId>): seq<ProductId> {
    if s == [] then [p]
    else if p < s[0] then [p] + s
    else if p == s[0] then s
    else [s[0]] + Insert(p, s[1..])
  }

  function Sorted(ps: seq<ProductId>): seq<ProductId> {
    if ps == [] then [] else Insert(ps[0], Sorted(ps[1..]))
  }

  /** FOR UPDATE locks the rows that exist. */
  function StockLocks(catalog: set<StockKey>, w: WarehouseId, ps: seq<ProductId>): seq<Lock> {
    if ps == [] then []
    else
      var key := StockKey(w, ps[0]);
      (if key in catalog then [StockLock(key)] else []) + StockLocks(catalog, w, ps[1..])
  }

  /** The locks the transaction takes, in order, as far as what it has read tells. */
  function Plan(catalog: set<StockKey>, work: Work, seen: map<Lock, Value>): seq<Lock> {
    var o := OrderOf(work);
    match work
    case ReserveWork(cmd, _) =>
      [OrderLock(o)] +
      if OrderLock(o) !in seen || !seen[OrderLock(o)].OrderValue? || seen[OrderLock(o)].row.Some? then []
      else StockLocks(catalog, cmd.warehouse, Sorted(Products(cmd.lines)))
    case SettleWork(_, payment, _, _) =>
      [OrderLock(o)] +
      if OrderLock(o) !in seen || !seen[OrderLock(o)].OrderValue? then []
      else RestOfSettle(catalog, o, payment, seen[OrderLock(o)])
    case InsertPaymentWork(_, _) => [OrderLock(o), PaymentLock(o)]
    case SaveChargeWork(_, _, _) => [PaymentLock(o)]
  }

  function RestOfSettle(catalog: set<StockKey>, o: OrderId, payment: Option<PaymentStatus>, read: Value): seq<Lock>
    requires read.OrderValue?
  {
    if read.row.None? || read.row.value.status != PendingPayment then []
    else
      (if payment.Some? then [PaymentLock(o)] else []) +
      if read.row.value.warehouse.None? || read.items.None? then []
      else StockLocks(catalog, read.row.value.warehouse.value, Sorted(Products(read.items.value)))
  }

  // ---------- computing from what was read ----------

  /** The tables as far as the transaction has read them. */
  function Mini(o: OrderId, seen: map<Lock, Value>): Tables {
    var order :=
      if OrderLock(o) in seen && seen[OrderLock(o)].OrderValue? then seen[OrderLock(o)] else OrderValue(None, None, []);
    Tables(if order.row.Some? then map[o := order.row.value] else map[],
           if order.items.Some? then map[o := order.items.value] else map[],
           if PaymentLock(o) in seen && seen[PaymentLock(o)].PaymentValue? && seen[PaymentLock(o)].payment.Some?
           then map[o := seen[PaymentLock(o)].payment.value] else map[],
           Books(map l | l in seen && l.StockLock? && seen[l].StockValue? && seen[l].balance.Some? ::
                   l.key := seen[l].balance.value,
                 order.moves),
           multiset{})
  }

  /** Writes the rows the transaction computed over the shared tables, and appends what it posted. */
  function Install(t: Tables, mini: Tables, local: Tables): Tables
    requires |mini.books.ledger| <= |local.books.ledger|
  {
    Tables(t.orders + local.orders, t.items + local.items, t.payments + local.payments,
           Books(t.books.stock + local.books.stock, t.books.ledger + local.books.ledger[|mini.books.ledger|..]),
           t.jobs + local.jobs)
  }

  // ---------- interleaved transactions ----------

  type TxId = nat
  datatype Tx = Tx(work: Work, seen: map<Lock, Value>)
  datatype LockState = LockState(tables: Tables, owner: map<Lock, TxId>, txs: map<TxId, Tx>)

  datatype LockStep =
    | Begin(tx: TxId, work: Work)
    | Acquire(tx: TxId)
    | Commit(tx: TxId)
    | Abort(tx: TxId)

  function FirstMissing(plan: seq<Lock>, seen: map<Lock, Value>): Option<Lock> {
    if plan == [] then None
    else if plan[0] !in seen then Some(plan[0])
    else FirstMissing(plan[1..], seen)
  }

  function Next(s: LockState, id: TxId): Option<Lock>
    requires id in s.txs
  {
    FirstMissing(Plan(s.tables.books.stock.Keys, s.txs[id].work, s.txs[id].seen), s.txs[id].seen)
  }

  predicate CanStep(s: LockState, step: LockStep) {
    match step
    case Begin(id, _) => id !in s.txs
    case Acquire(id) => id in s.txs && Next(s, id).Some? && Next(s, id).value !in s.owner
    case Commit(id) => id in s.txs && Next(s, id).None?
    case Abort(id) => id in s.txs
  }

  function Without(s: LockState, id: TxId): LockState {
    LockState(s.tables,
              map l | l in s.owner && s.owner[l] != id :: s.owner[l],
              map j | j in s.txs && j != id :: s.txs[j])
  }

  /** The committed tables, from the transaction's own reads. */
  function Committed(t: Tables, tx: Tx): Tables {
    var mini := Mini(OrderOf(tx.work), tx.seen);
    var local := Effect(mini, tx.work);
    if |mini.books.ledger| <= |local.books.ledger| then Install(t, mini, local) else t
  }

  function TakeStep(s: LockState, step: LockStep): LockState
    requires CanStep(s, step)
  {
    match step
    case Begin(id, work) => s.(txs := s.txs[id := Tx(work, map[])])
    case Acquire(id) =>
      var l := Next(s, id).value;
      s.(owner := s.owner[l := id],
         txs := s.txs[id := s.txs[id].(seen := s.txs[id].seen[l := ValueOf(s.tables, l)])])
    case Commit(id) => Without(s, id).(tables := Committed(s.tables, s.txs[id]))
    case Abort(id) => Without(s, id)
  }

  /** What a transaction read under a lock it owns is what the row still holds. */
  ghost predicate ReadsHold(s: LockState) {
    forall id, l | id in s.txs && l in s.txs[id].seen ::
      l in s.owner && s.owner[l] == id && s.txs[id].seen[l] == ValueOf(s.tables, l)
  }

  ghost predicate OwnersRead(s: LockState) {
    forall l | l in s.owner :: s.owner[l] in s.txs && l in s.txs[s.owner[l]].seen
  }

  ghost predicate OnPlan(catalog: set<StockKey>, tx: Tx) {
    InOrder(Plan(catalog, tx.work, tx.seen), tx.seen)
  }

  ghost predicate AllOnPlan(s: LockState) {
    forall id | id in s.txs :: OnPlan(s.tables.books.stock.Keys, s.txs[id])
  }

  ghost predicate Locked(s: LockState) {
    ReadsHold(s) && OwnersRead(s) && AllOnPlan(s)
  }

  /** The locks held are exactly a first part of the plan. */
  ghost predicate InOrder(plan: seq<Lock>, seen: map<Lock, Value>) {
    exists n :: 0 <= n <= |plan| && IsFirst(plan, n, seen)
  }

  ghost predicate IsFirst(plan: seq<Lock>, n: nat, seen: map<Lock, Value>)
    requires n <= |plan|
  {
    && (forall i | 0 <= i < n :: plan[i] in seen)
    && (forall l | l in seen :: l in plan[..n])
  }
}
