/** Interleaved runs have the effect of running the committed transactions one by one, and never deadlock. */
module Serializability {
  import opened Wrappers
  import opened Books
  import opened Orders
  import opened Tables
  import opened TablesLaws
  import opened Protocol
  import opened Locking
  import opened Locality

  // ---------- a commit writes only rows it has locked ----------

  lemma {:induction false} MovesTwice(l: seq<Movement>, o: OrderId)
    ensures MovesOf(MovesOf(l, o), o) == MovesOf(l, o)
  {
    if l != [] {
      var past, m := l[..|l| - 1], l[|l| - 1];
      MovesTwice(past, o);
      if m.order == o {
        MovesAppend(MovesOf(past, o), m, o);
      } else {
        assert MovesOf(l, o) == MovesOf(past, o);
      }
    }
  }

  lemma {:induction false} MovesOfOthers(l: seq<Movement>, suffix: seq<Movement>, o: OrderId, q: OrderId)
    requires q != o && forall i | 0 <= i < |suffix| :: suffix[i].order == o
    ensures MovesOf(l + suffix, q) == MovesOf(l, q)
  {
    if suffix == [] {
      assert l + suffix == l;
    } else {
      var n := |suffix| - 1;
      MovesOfOthers(l, suffix[..n], o, q);
      assert l + suffix == (l + suffix[..n]) + [suffix[n]];
      MovesAppend(l + suffix[..n], suffix[n], q);
    }
  }

  /** What a transaction computes on its own rows: no new stock row, only its own order's movements. */
  ghost predicate Shaped(mini: Tables, local: Tables, o: OrderId) {
    && local.books.stock.Keys == mini.books.stock.Keys
    && Appended(mini.books, local.books, o)
    && local.orders.Keys <= {o} && local.items.Keys <= {o} && local.payments.Keys <= {o}
  }

  lemma BooksShaped(mini: Books, o: OrderId, outcome: Result<Books, TxError>)
    requires SameOutcome(mini, mini, o, outcome, outcome)
    ensures outcome.Ok? ==> outcome.value.stock.Keys == mini.stock.Keys && Appended(mini, outcome.value, o)
  {
  }

  lemma EffectShaped(mini: Tables, work: Work)
    requires var o := OrderOf(work);
             && mini.orders.Keys <= {o} && mini.items.Keys <= {o} && mini.payments.Keys <= {o}
             && MovesOf(mini.books.ledger, o) == mini.books.ledger
    ensures Shaped(mini, Effect(mini, work), OrderOf(work))
  {
    var o, b := OrderOf(work), mini.books;
    match work
    case ReserveWork(cmd, now) =>
      ReserveLinesLocal(b, b, o, cmd.warehouse, cmd.lines);
      BooksShaped(b, o, ReserveLines(b, o, cmd.warehouse, cmd.lines));
    case SettleWork(_, payment, action, now) =>
      if o in mini.orders && mini.orders[o].warehouse.Some? {
        var lines := if o in mini.items then mini.items[o] else [];
        CloseLinesLocal(b, b, o, mini.orders[o].warehouse.value, Products(lines), ClosingKind(action));
        BooksShaped(b, o, CloseLines(b, o, mini.orders[o].warehouse.value, Products(lines), ClosingKind(action)));
      }
    case InsertPaymentWork(_, _) =>
    case SaveChargeWork(_, _, _) =>
  }

  lemma MiniShaped(t: Tables, o: OrderId, seen: map<Lock, Value>)
    requires Fresh(t, seen)
    ensures var mini := Mini(o, seen);
            && mini.orders.Keys <= {o} && mini.items.Keys <= {o} && mini.payments.Keys <= {o}
            && MovesOf(mini.books.ledger, o) == mini.books.ledger
            && (forall k | k in mini.books.stock :: StockLock(k) in seen)
            && (mini.payments != map[] ==> PaymentLock(o) in seen)
            && (OrderLock(o) !in seen ==> mini.orders == map[] && mini.items == map[])
  {
    if OrderLock(o) in seen {
      assert seen[OrderLock(o)] == ValueOf(t, OrderLock(o));
      MovesTwice(t.books.ledger, o);
    }
  }

  /** A row the transaction has not locked is as it was. */
  lemma CommitKeepsOtherRows(t: Tables, work: Work, seen: map<Lock, Value>, l: Lock)
    requires Fresh(t, seen) && AllSeen(t, work, seen) && l !in seen
    ensures ValueOf(Committed(t, Tx(work, seen)), l) == ValueOf(t, l)
  {
    match l
    case StockLock(_) => CommitKeepsOtherStock(t, work, seen, l);
    case PaymentLock(_) => CommitKeepsOtherPayment(t, work, seen, l);
    case OrderLock(_) => CommitKeepsOtherOrder(t, work, seen, l);
  }

  lemma CommitKeepsOtherStock(t: Tables, work: Work, seen: map<Lock, Value>, l: Lock)
    requires Fresh(t, seen) && AllSeen(t, work, seen) && l !in seen && l.StockLock?
    ensures ValueOf(Committed(t, Tx(work, seen)), l) == ValueOf(t, l)
  {
    var mini := Mini(OrderOf(work), seen);
    MiniShaped(t, OrderOf(work), seen);
    EffectShaped(mini, work);
  }

  lemma CommitKeepsOtherPayment(t: Tables, work: Work, seen: map<Lock, Value>, l: Lock)
    requires Fresh(t, seen) && AllSeen(t, work, seen) && l !in seen && l.PaymentLock?
    ensures ValueOf(Committed(t, Tx(work, seen)), l) == ValueOf(t, l)
  {
    var mini := Mini(OrderOf(work), seen);
    MiniShaped(t, OrderOf(work), seen);
    EffectShaped(mini, work);
    PlanHas(t.books.stock.Keys, work, seen);
    UnseenPayment(mini, work);
  }

  lemma CommitKeepsOtherOrder(t: Tables, work: Work, seen: map<Lock, Value>, l: Lock)
    requires Fresh(t, seen) && AllSeen(t, work, seen) && l !in seen && l.OrderLock?
    ensures ValueOf(Committed(t, Tx(work, seen)), l) == ValueOf(t, l)
  {
    if l.order != OrderOf(work) {
      CommitKeepsAnotherOrder(t, work, seen, l.order);
    } else {
      PlanHas(t.books.stock.Keys, work, seen);
      SaveKeepsOrders(t, work, seen);
    }
  }

  lemma CommitKeepsAnotherOrder(t: Tables, work: Work, seen: map<Lock, Value>, q: OrderId)
    requires Fresh(t, seen) && q != OrderOf(work)
    ensures ValueOf(Committed(t, Tx(work, seen)), OrderLock(q)) == ValueOf(t, OrderLock(q))
  {
    var mini := Mini(OrderOf(work), seen);
    MiniShaped(t, OrderOf(work), seen);
    EffectShaped(mini, work);
    InstallKeepsAnother(t, mini, Effect(mini, work), OrderOf(work), q);
  }

  /** Installing rows and postings of one order leaves another's as they were. */
  lemma InstallKeepsAnother(t: Tables, mini: Tables, local: Tables, o: OrderId, q: OrderId)
    requires q != o && |mini.books.ledger| <= |local.books.ledger| && q !in local.orders && q !in local.items
    requires forall i | |mini.books.ledger| <= i < |local.books.ledger| :: local.books.ledger[i].order == o
    ensures ValueOf(Install(t, mini, local), OrderLock(q)) == ValueOf(t, OrderLock(q))
  {
    MovesOfOthers(t.books.ledger, local.books.ledger[|mini.books.ledger|..], o, q);
  }

  lemma SaveKeepsOrders(t: Tables, work: Work, seen: map<Lock, Value>)
    requires work.SaveChargeWork? && OrderLock(OrderOf(work)) !in seen
    ensures ValueOf(Committed(t, Tx(work, seen)), OrderLock(OrderOf(work))) == ValueOf(t, OrderLock(OrderOf(work)))
  {
    var mini := Mini(OrderOf(work), seen);
    var local := Effect(mini, work);
    assert local.books == mini.books && mini.books.ledger == [];
    assert t.books.ledger + local.books.ledger[|mini.books.ledger|..] == t.books.ledger;
  }

  lemma PlanHas(catalog: set<StockKey>, work: Work, seen: map<Lock, Value>)
    ensures var plan, o := Plan(catalog, work, seen), OrderOf(work);
            && (!work.SaveChargeWork? ==> OrderLock(o) in plan)
            && (work.SaveChargeWork? || work.InsertPaymentWork? ==> PaymentLock(o) in plan)
  {
    var plan, o := Plan(catalog, work, seen), OrderOf(work);
    assert plan[0] == if work.SaveChargeWork? then PaymentLock(o) else OrderLock(o);
    if work.InsertPaymentWork? {
      assert plan[1] == PaymentLock(o);
    }
  }

  lemma UnseenPayment(mini: Tables, work: Work)
    requires mini.payments.Keys <= {OrderOf(work)}
    ensures mini.payments == map[] && (work.ReserveWork? || work.SettleWork?) ==> Effect(mini, work).payments == map[]
  {
  }

  // ---------- the order in which locks are taken ----------

  function Rank(l: Lock): nat {
    match l
    case OrderLock(_) => 0
    case PaymentLock(_) => 1
    case StockLock(key) => key.product + 2
  }

  ghost predicate Ascending(plan: seq<Lock>) {
    forall i, j | 0 <= i < j < |plan| :: Rank(plan[i]) < Rank(plan[j])
  }

  ghost predicate Ordered(ps: seq<ProductId>) {
    forall i, j | 0 <= i < j < |ps| :: ps[i] < ps[j]
  }

  lemma {:induction false} InsertOrdered(p: ProductId, s: seq<ProductId>)
    requires Ordered(s)
    ensures Ordered(Insert(p, s))
  {
    if s != [] && p > s[0] {
      InsertOrdered(p, s[1..]);
      InsertKeeps(p, s[1..]);
      forall j | 0 < j < |Insert(p, s)|
        ensures s[0] < Insert(p, s)[j]
      {
        assert Insert(p, s)[j] in Insert(p, s[1..]);
      }
    }
  }

  lemma {:induction false} SortedOrdered(ps: seq<ProductId>)
    ensures Ordered(Sorted(ps))
  {
    if ps != [] {
      SortedOrdered(ps[1..]);
      InsertOrdered(ps[0], Sorted(ps[1..]));
    }
  }

  lemma {:induction false} StockLocksAscend(catalog: set<StockKey>, w: WarehouseId, ps: seq<ProductId>)
    requires Ordered(ps)
    ensures Ascending(StockLocks(catalog, w, ps))
    ensures forall l | l in StockLocks(catalog, w, ps) :: l.StockLock? && l.key.product in ps
  {
    if ps != [] {
      StockLocksAscend(catalog, w, ps[1..]);
      var rest := StockLocks(catalog, w, ps[1..]);
      forall j | 0 <= j < |rest|
        ensures ps[0] + 2 < Rank(rest[j])
      {
        assert rest[j] in rest;
      }
    }
  }

  /** Every transaction takes its locks in ascending rank: the order, its payment, then stock by product. */
  lemma PlanAscends(catalog: set<StockKey>, work: Work, seen: map<Lock, Value>)
    ensures Ascending(Plan(catalog, work, seen))
  {
    var o := OrderOf(work);
    match work
    case ReserveWork(cmd, _) =>
      SortedOrdered(Products(cmd.lines));
      StockLocksAscend(catalog, cmd.warehouse, Sorted(Products(cmd.lines)));
      StockAfter([OrderLock(o)], StockLocks(catalog, cmd.warehouse, Sorted(Products(cmd.lines))));
    case SettleWork(_, payment, _, _) =>
      if OrderLock(o) in seen && seen[OrderLock(o)].OrderValue? {
        var read := seen[OrderLock(o)];
        if read.row.Some? && read.row.value.warehouse.Some? && read.items.Some? {
          var w, ps := read.row.value.warehouse.value, Products(read.items.value);
          SortedOrdered(ps);
          StockLocksAscend(catalog, w, Sorted(ps));
          var front := [OrderLock(o)] + if payment.Some? then [PaymentLock(o)] else [];
          StockAfter(front, StockLocks(catalog, w, Sorted(ps)));
          assert RestOfSettle(catalog, o, payment, read) == [] ||
                 [OrderLock(o)] + RestOfSettle(catalog, o, payment, read) == front + StockLocks(catalog, w, Sorted(ps));
        }
      }
    case InsertPaymentWork(_, _) =>
    case SaveChargeWork(_, _, _) =>
  }

  lemma StockAfter(front: seq<Lock>, stock: seq<Lock>)
    requires Ascending(front) && Ascending(stock)
    requires (forall l | l in front :: !l.StockLock?) && (forall l | l in stock :: l.StockLock?)
    ensures Ascending(front + stock)
  {
    var all := front + stock;
    forall i, j | 0 <= i < j < |all|
      ensures Rank(all[i]) < Rank(all[j])
    {
      assert i < |front| ==> all[i] in front;
      assert j >= |front| ==> all[j] in stock;
      assert i >= |front| ==> all[i] in stock;
    }
  }

  lemma {:induction false} MissingAt(plan: seq<Lock>, n: nat, seen: map<Lock, Value>)
    requires Ascending(plan) && n <= |plan| && IsFirst(plan, n, seen)
    ensures FirstMissing(plan, seen) == if n < |plan| then Some(plan[n]) else None
    ensures n < |plan| ==> plan[n] !in seen && forall l | l in seen :: Rank(l) < Rank(plan[n])
  {
    if n < |plan| {
      assert plan[n] !in plan[..n];
    }
    MissingScan(plan, n, seen);
  }

  lemma {:induction false} MissingScan(plan: seq<Lock>, n: nat, seen: map<Lock, Value>)
    requires n <= |plan| && (forall i | 0 <= i < n :: plan[i] in seen) && (n < |plan| ==> plan[n] !in seen)
    ensures FirstMissing(plan, seen) == if n < |plan| then Some(plan[n]) else None
  {
    if n > 0 {
      MissingScan(plan[1..], n - 1, seen);
    }
  }

  // ---------- steps keep the locks honest ----------

  function Catalog(s: LockState): set<StockKey> {
    s.tables.books.stock.Keys
  }

  function PlanOf(s: LockState, id: TxId): seq<Lock>
    requires id in s.txs
  {
    Plan(Catalog(s), s.txs[id].work, s.txs[id].seen)
  }

  lemma NextMissing(s: LockState, id: TxId)
    requires Locked(s) && id in s.txs
    ensures Next(s, id).None? ==> AllSeen(s.tables, s.txs[id].work, s.txs[id].seen)
    ensures Next(s, id).Some? ==>
              && Next(s, id).value !in s.txs[id].seen
              && forall l | l in s.txs[id].seen :: Rank(l) < Rank(Next(s, id).value)
  {
    var plan, seen := PlanOf(s, id), s.txs[id].seen;
    PlanAscends(Catalog(s), s.txs[id].work, seen);
    assert OnPlan(Catalog(s), s.txs[id]);
    var n :| 0 <= n <= |plan| && IsFirst(plan, n, seen);
    MissingAt(plan, n, seen);
  }

  lemma FreshReads(s: LockState, id: TxId)
    requires Locked(s) && id in s.txs
    ensures Fresh(s.tables, s.txs[id].seen)
  {
  }

  /** Reading one more lock extends the plan but never changes the part already taken. */
  lemma PlanGrows(catalog: set<StockKey>, work: Work, seen: map<Lock, Value>, l: Lock, v: Value)
    requires InOrder(Plan(catalog, work, seen), seen) && FirstMissing(Plan(catalog, work, seen), seen) == Some(l)
    ensures InOrder(Plan(catalog, work, seen[l := v]), seen[l := v])
  {
    PlanAscends(catalog, work, seen);
    var n := NextPlace(Plan(catalog, work, seen), seen, l);
    PlanKeepsFront(catalog, work, seen, l, v, n);
    FrontGrows(Plan(catalog, work, seen), Plan(catalog, work, seen[l := v]), n, seen, l, v);
  }

  /** The first lock missing stands right behind those held. */
  lemma NextPlace(plan: seq<Lock>, seen: map<Lock, Value>, l: Lock) returns (n: nat)
    requires Ascending(plan) && InOrder(plan, seen) && FirstMissing(plan, seen) == Some(l)
    ensures n < |plan| && IsFirst(plan, n, seen) && plan[n] == l && l !in seen
  {
    n :| 0 <= n <= |plan| && IsFirst(plan, n, seen);
    MissingAt(plan, n, seen);
  }

  lemma FrontGrows(plan: seq<Lock>, after: seq<Lock>, n: nat, seen: map<Lock, Value>, l: Lock, v: Value)
    requires n < |plan| && IsFirst(plan, n, seen) && plan[n] == l
    requires n < |after| && after[..n + 1] == plan[..n + 1]
    ensures InOrder(after, seen[l := v])
  {
    assert plan[..n + 1] == plan[..n] + [l];
    assert forall i | 0 <= i <= n :: after[i] == after[..n + 1][i];
    assert IsFirst(after, n + 1, seen[l := v]);
  }

  /** Reading one more row leaves the part of the plan up to it as it was. */
  lemma PlanKeepsFront(catalog: set<StockKey>, work: Work, seen: map<Lock, Value>, l: Lock, v: Value, n: nat)
    requires Ascending(Plan(catalog, work, seen)) && n < |Plan(catalog, work, seen)|
             && Plan(catalog, work, seen)[n] == l && l !in seen
    ensures n < |Plan(catalog, work, seen[l := v])|
    ensures Plan(catalog, work, seen[l := v])[..n + 1] == Plan(catalog, work, seen)[..n + 1]
  {
    var plan, after := Plan(catalog, work, seen), Plan(catalog, work, seen[l := v]);
    if l == OrderLock(OrderOf(work)) {
      assert plan[0] == l;
      assert n == 0;
    } else if OrderLock(OrderOf(work)) in seen {
      assert after == plan;
    }
  }

  lemma AcquireKeepsPlans(s: LockState, id: TxId)
    requires AllOnPlan(s) && CanStep(s, Acquire(id))
    ensures AllOnPlan(TakeStep(s, Acquire(id)))
  {
    var l := Next(s, id).value;
    assert OnPlan(Catalog(s), s.txs[id]);
    PlanGrows(Catalog(s), s.txs[id].work, s.txs[id].seen, l, ValueOf(s.tables, l));
  }

  lemma AcquireKeepsLocked(s: LockState, id: TxId)
    requires Locked(s) && CanStep(s, Acquire(id))
    ensures Locked(TakeStep(s, Acquire(id)))
  {
    AcquireKeepsPlans(s, id);
    AcquireKeepsReads(s, id, Next(s, id).value);
  }

  lemma AcquireKeepsReads(s: LockState, id: TxId, l: Lock)
    requires ReadsHold(s) && OwnersRead(s) && id in s.txs && l !in s.owner
    ensures var after := s.(owner := s.owner[l := id],
                            txs := s.txs[id := s.txs[id].(seen := s.txs[id].seen[l := ValueOf(s.tables, l)])]);
            ReadsHold(after) && OwnersRead(after)
  {
  }

  lemma DropKeepsReads(s: LockState, id: TxId, t: Tables)
    requires ReadsHold(s) && OwnersRead(s) && id in s.txs
    requires forall j, l | j in s.txs && j != id && l in s.txs[j].seen :: ValueOf(t, l) == ValueOf(s.tables, l)
    ensures ReadsHold(Without(s, id).(tables := t)) && OwnersRead(Without(s, id).(tables := t))
  {
  }

  lemma DropKeepsLocked(s: LockState, id: TxId, t: Tables)
    requires Locked(s) && id in s.txs && t.books.stock.Keys == Catalog(s)
    requires forall j, l | j in s.txs && j != id && l in s.txs[j].seen :: ValueOf(t, l) == ValueOf(s.tables, l)
    ensures Locked(Without(s, id).(tables := t))
  {
    DropKeepsReads(s, id, t);
    forall j | j in s.txs && j != id
      ensures OnPlan(t.books.stock.Keys, s.txs[j])
    {
      assert OnPlan(Catalog(s), s.txs[j]);
    }
  }

  lemma CommitKeepsCatalog(t: Tables, work: Work, seen: map<Lock, Value>)
    requires Fresh(t, seen)
    ensures Committed(t, Tx(work, seen)).books.stock.Keys == t.books.stock.Keys
  {
    var mini := Mini(OrderOf(work), seen);
    MiniShaped(t, OrderOf(work), seen);
    MiniWithin(t, OrderOf(work), seen);
    EffectShaped(mini, work);
  }

  /** Another transaction's locked rows survive the commit. */
  lemma CommitKeepsReads(s: LockState, id: TxId, j: TxId, l: Lock)
    requires ReadsHold(s) && id in s.txs && j in s.txs && j != id && l in s.txs[j].seen
    requires AllSeen(s.tables, s.txs[id].work, s.txs[id].seen)
    ensures ValueOf(Committed(s.tables, s.txs[id]), l) == ValueOf(s.tables, l)
  {
    assert s.owner[l] == j;
    CommitKeepsOtherRows(s.tables, s.txs[id].work, s.txs[id].seen, l);
  }

  lemma CommitKeepsLocked(s: LockState, id: TxId)
    requires Locked(s) && CanStep(s, Commit(id))
    ensures Locked(TakeStep(s, Commit(id)))
    ensures TakeStep(s, Commit(id)).tables == Effect(s.tables, s.txs[id].work)
  {
    NextMissing(s, id);
    FreshReads(s, id);
    CommitIsAtomic(s.tables, s.txs[id].work, s.txs[id].seen);
    CommitKeepsCatalog(s.tables, s.txs[id].work, s.txs[id].seen);
    forall j, l | j in s.txs && j != id && l in s.txs[j].seen
      ensures ValueOf(Committed(s.tables, s.txs[id]), l) == ValueOf(s.tables, l)
    {
      CommitKeepsReads(s, id, j, l);
    }
    DropKeepsLocked(s, id, Committed(s.tables, s.txs[id]));
  }

  lemma BeginKeepsLocked(s: LockState, id: TxId, work: Work)
    requires Locked(s) && CanStep(s, Begin(id, work))
    ensures Locked(TakeStep(s, Begin(id, work)))
  {
    NewOnPlan(Catalog(s), work);
    BeginKeepsReads(s, id, work);
  }

  lemma NewOnPlan(catalog: set<StockKey>, work: Work)
    ensures OnPlan(catalog, Tx(work, map[]))
  {
    assert IsFirst(Plan(catalog, work, map[]), 0, map[]);
  }

  lemma BeginKeepsReads(s: LockState, id: TxId, work: Work)
    requires ReadsHold(s) && OwnersRead(s) && id !in s.txs
    ensures var after := s.(txs := s.txs[id := Tx(work, map[])]); ReadsHold(after) && OwnersRead(after)
  {
  }

  /** Whatever steps: what a transaction read under a lock is still what the row holds. */
  lemma StepKeepsLocked(s: LockState, step: LockStep)
    requires Locked(s) && CanStep(s, step)
    ensures Locked(TakeStep(s, step))
    ensures TakeStep(s, step).tables == if step.Commit? then Effect(s.tables, s.txs[step.tx].work) else s.tables
  {
    match step
    case Begin(id, work) => BeginKeepsLocked(s, id, work);
    case Acquire(id) => AcquireKeepsLocked(s, id);
    case Commit(id) => CommitKeepsLocked(s, id);
    case Abort(id) => DropKeepsLocked(s, id, s.tables);
  }

  // ---------- whole runs ----------

  ghost predicate LockRun(states: seq<LockState>, steps: seq<LockStep>) {
    && |states| == |steps| + 1
    && states[0].owner == map[] && states[0].txs == map[]
    && forall i | 0 <= i < |steps| :: CanStep(states[i], steps[i]) && states[i + 1] == TakeStep(states[i], steps[i])
  }

  /** The transactions committed in the first n steps, in commit order. */
  ghost function CommitOrder(states: seq<LockState>, steps: seq<LockStep>, n: nat): seq<Work>
    requires LockRun(states, steps) && n <= |steps|
  {
    if n == 0 then []
    else CommitOrder(states, steps, n - 1) +
         if steps[n - 1].Commit? then [states[n - 1].txs[steps[n - 1].tx].work] else []
  }

  function Serially(t: Tables, works: seq<Work>): Tables {
    if works == [] then t else Effect(Serially(t, works[..|works| - 1]), works[|works| - 1])
  }

  lemma {:induction false} LocksStayHonest(states: seq<LockState>, steps: seq<LockStep>, n: nat)
    requires LockRun(states, steps) && n <= |steps|
    ensures Locked(states[n])
  {
    if n > 0 {
      LocksStayHonest(states, steps, n - 1);
      StepKeepsLocked(states[n - 1], steps[n - 1]);
    }
  }

  /** Any interleaving leaves the tables as its committed transactions would, run one at a time in commit order. */
  lemma {:induction false} RunsAreSerial(states: seq<LockState>, steps: seq<LockStep>, n: nat)
    requires LockRun(states, steps) && n <= |steps|
    ensures states[n].tables == Serially(states[0].tables, CommitOrder(states, steps, n))
  {
    if n > 0 {
      RunsAreSerial(states, steps, n - 1);
      LocksStayHonest(states, steps, n - 1);
      StepKeepsLocked(states[n - 1], steps[n - 1]);
      var before := CommitOrder(states, steps, n - 1);
      if steps[n - 1].Commit? {
        var work := states[n - 1].txs[steps[n - 1].tx].work;
        assert (before + [work])[..|before|] == before;
      } else {
        assert CommitOrder(states, steps, n) == before;
      }
    }
  }

  // ---------- no deadlock ----------

  /** The transaction wants a lock that the other holds. */
  predicate Waits(s: LockState, id: TxId, other: TxId) {
    && id in s.txs && Next(s, id).Some?
    && Next(s, id).value in s.owner && s.owner[Next(s, id).value] == other
  }

  predicate CanGoOn(s: LockState, id: TxId) {
    CanStep(s, Acquire(id)) || CanStep(s, Commit(id))
  }

  function WantedRank(s: LockState, id: TxId): nat {
    if id in s.txs && Next(s, id).Some? then Rank(Next(s, id).value) else 0
  }

  lemma WaitsClimb(s: LockState, id: TxId, other: TxId)
    requires Locked(s) && Waits(s, id, other)
    ensures other in s.txs && other != id
    ensures Next(s, other).Some? ==> WantedRank(s, id) < WantedRank(s, other)
  {
    NextMissing(s, id);
    NextMissing(s, other);
  }

  ghost predicate WaitPath(s: LockState, path: seq<TxId>) {
    |path| >= 2 && forall i | 0 <= i < |path| - 1 :: Waits(s, path[i], path[i + 1])
  }

  /** The wait-for graph has no cycle, however many transactions are under way. */
  lemma NoWaitCycle(s: LockState, path: seq<TxId>)
    requires Locked(s) && WaitPath(s, path)
    ensures path[0] != path[|path| - 1] && !Waits(s, path[|path| - 1], path[0])
  {
    var first, last := path[0], path[|path| - 1];
    WaitPathClimbs(s, path, |path| - 1);
    assert Waits(s, first, path[1]);
    if Waits(s, last, first) {
      WaitsClimb(s, last, first);
    }
  }

  /** Whatever b wants ranks above what a wants. */
  predicate Outranks(s: LockState, b: TxId, a: TxId) {
    b in s.txs && (Next(s, b).Some? ==> WantedRank(s, a) < WantedRank(s, b))
  }

  lemma ClimbOn(s: LockState, a: TxId, b: TxId, c: TxId)
    requires Locked(s) && Waits(s, b, c) && (a == b || Outranks(s, b, a))
    ensures Outranks(s, c, a)
  {
    WaitsClimb(s, b, c);
  }

  lemma {:induction false} WaitPathClimbs(s: LockState, path: seq<TxId>, n: nat)
    requires Locked(s) && WaitPath(s, path) && 0 < n < |path|
    ensures Outranks(s, path[n], path[0])
  {
    if n > 1 {
      WaitPathClimbs(s, path, n - 1);
    }
    ClimbOn(s, path[0], path[n - 1], path[n]);
  }

  /** While any transaction is under way, one of them can take its next lock or commit. */
  lemma NeverStuck(s: LockState)
    requires Locked(s) && s.txs != map[]
    ensures exists id :: id in s.txs && CanGoOn(s, id)
  {
    var id := MostAdvanced(s, s.txs.Keys);
    if !CanGoOn(s, id) {
      var holder := s.owner[Next(s, id).value];
      WaitsClimb(s, id, holder);
      assert CanGoOn(s, holder);
    }
  }

  lemma {:induction false} MostAdvanced(s: LockState, ids: set<TxId>) returns (id: TxId)
    requires ids != {} && ids <= s.txs.Keys
    ensures id in ids && forall j | j in ids :: WantedRank(s, j) <= WantedRank(s, id)
    decreases ids
  {
    var x :| x in ids;
    if ids == {x} {
      id := x;
    } else {
      id := MostAdvanced(s, ids - {x});
      if WantedRank(s, id) < WantedRank(s, x) {
        id := x;
      }
    }
  }

  // ---------- the guarantees carry over ----------

  ghost predicate ValidWork(work: Work) {
    work.ReserveWork? ==> ValidLines(work.cmd.lines)
  }

  lemma EffectConsistent(t: Tables, opening: map<StockKey, int>, work: Work)
    requires Consistent(t, opening) && ValidWork(work)
    ensures Consistent(Effect(t, work), opening)
  {
    match work
    case ReserveWork(cmd, now) => ReserveTxConsistent(t, opening, cmd, false, now);
    case SettleWork(o, payment, action, now) =>
      if o in t.orders {
        SettleTxConsistent(t, opening, o, payment, action, now);
      }
    case _ =>
      var after := Effect(t, work);
      forall o | o in after.orders
        ensures OrderAgrees(after, o)
      {
        assert OrderAgrees(t, o);
      }
  }

  /** Conservation, replay and cross-table agreement hold in every committed state of every interleaving. */
  lemma {:induction false} InterleavingsStayConsistent(states: seq<LockState>, steps: seq<LockStep>,
                                                       opening: map<StockKey, int>, n: nat)
    requires LockRun(states, steps) && n <= |steps|
    requires Consistent(states[0].tables, opening)
    requires forall step | step in steps && step.Begin? :: ValidWork(step.work)
    ensures Consistent(states[n].tables, opening)
    ensures forall id | id in states[n].txs :: ValidWork(states[n].txs[id].work)
  {
    if n > 0 {
      InterleavingsStayConsistent(states, steps, opening, n - 1);
      LocksStayHonest(states, steps, n - 1);
      var s, step := states[n - 1], steps[n - 1];
      assert step in steps;
      StepKeepsLocked(s, step);
      if step.Commit? {
        EffectConsistent(s.tables, opening, s.txs[step.tx].work);
      }
    }
  }
}
