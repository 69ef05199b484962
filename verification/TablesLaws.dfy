/** Every committed transaction keeps the tables consistent, and consistent tables let none abort on a CHECK. */
module TablesLaws {
  import opened Wrappers
  import opened Books
  import opened BooksLaws
  import opened Orders
  import opened Tables

  // ---------- the history of one line ----------

  lemma EntriesAppend(l: seq<Movement>, m: Movement, o: OrderId, p: ProductId)
    ensures Entries(l + [m], o, p) == Entries(l, o, p) + if SameLine(m, o, p) then [m] else []
  {
    assert (l + [m])[..|l|] == l;
  }

  lemma {:induction false} LatestIsLastEntry(l: seq<Movement>, o: OrderId, p: ProductId)
    ensures var es := Entries(l, o, p);
            Latest(l, o, p) == if es == [] then None else Some(es[|es| - 1])
  {
    if l != [] {
      LatestIsLastEntry(l[..|l| - 1], o, p);
    }
  }

  /** In a legal ledger a line is opened at most once and closed at most once. */
  lemma {:induction false} EachLineMovesOnce(l: seq<Movement>, o: OrderId, p: ProductId)
    requires LegalLedger(l)
    ensures var es := Entries(l, o, p);
            && |es| <= 2
            && (|es| >= 1 ==> es[0].kind == RESERVE && es[0].order == o && es[0].key.product == p)
            && (|es| == 2 ==> es[1].kind != RESERVE && es[1].key == es[0].key)
  {
    if l != [] {
      EachLineMovesOnce(l[..|l| - 1], o, p);
      LatestIsLastEntry(l[..|l| - 1], o, p);
    }
  }

  // ---------- reserving all lines ----------

  lemma {:induction false} UnmetEmpty(stock: map<StockKey, Balance>, w: WarehouseId, lines: seq<OrderLine>)
    ensures Unmet(stock, w, lines) == [] <==> forall i | 0 <= i < |lines| :: !Short(stock, w, lines[i])
  {
    if lines != [] {
      UnmetEmpty(stock, w, lines[1..]);
      assert lines == [lines[0]] + lines[1..];
    }
  }

  ghost predicate Untouched(before: Books, after: Books, o: OrderId, ps: seq<ProductId>) {
    forall q, p | !(q == o && p in ps) :: Entries(after.ledger, q, p) == Entries(before.ledger, q, p)
  }

  ghost predicate Reserved(before: Books, after: Books, o: OrderId, w: WarehouseId, lines: seq<OrderLine>) {
    && (forall i | 0 <= i < |lines| :: LineHistory(after.ledger, o, w, lines[i], PendingPayment))
    && Untouched(before, after, o, Products(lines))
  }

  lemma OneReserve(b: Books, opening: map<StockKey, int>, o: OrderId, w: WarehouseId, line: OrderLine)
    requires Sound(b, opening) && line.quantity >= 1 && Entries(b.ledger, o, line.product) == []
    requires !Short(b.stock, w, line)
    ensures ReserveLine(b, o, w, line).Ok?
    ensures var next := ReserveLine(b, o, w, line).value;
            && Sound(next, opening)
            && Reserved(b, next, o, w, [line])
            && (forall key | key in b.stock && key != StockKey(w, line.product) :: next.stock[key] == b.stock[key])
  {
    LatestIsLastEntry(b.ledger, o, line.product);
    ReserveLineSound(b, opening, o, w, line);
    var m := ReserveMovement(b.stock[StockKey(w, line.product)], o, w, line);
    forall q, p
      ensures Entries(b.ledger + [m], q, p) == Entries(b.ledger, q, p) + if SameLine(m, q, p) then [m] else []
    {
      EntriesAppend(b.ledger, m, q, p);
    }
    assert Products([line])[0] == line.product;
  }

  lemma {:induction false} ReserveLinesSound(b: Books, opening: map<StockKey, int>, o: OrderId, w: WarehouseId,
                                             lines: seq<OrderLine>)
    requires Sound(b, opening) && Distinct(lines)
    requires forall i | 0 <= i < |lines| ::
               lines[i].quantity >= 1 && Entries(b.ledger, o, lines[i].product) == [] && !Short(b.stock, w, lines[i])
    ensures ReserveLines(b, o, w, lines).Ok?
    ensures var after := ReserveLines(b, o, w, lines).value;
            Sound(after, opening) && Reserved(b, after, o, w, lines)
    decreases |lines|
  {
    if lines != [] {
      var line, rest := lines[0], lines[1..];
      OneReserve(b, opening, o, w, line);
      var next := ReserveLine(b, o, w, line).value;
      assert forall i | 0 <= i < |rest| :: rest[i] == lines[i + 1] && rest[i].product !in Products([line]);
      ReserveLinesSound(next, opening, o, w, rest);
      var after := ReserveLines(next, o, w, rest).value;
      ReservedCons(b, next, after, o, w, lines);
    }
  }

  lemma ReservedCons(b: Books, next: Books, after: Books, o: OrderId, w: WarehouseId, lines: seq<OrderLine>)
    requires |lines| > 0 && Distinct(lines)
    requires Reserved(b, next, o, w, [lines[0]]) && Reserved(next, after, o, w, lines[1..])
    ensures Reserved(b, after, o, w, lines)
  {
    var rest := lines[1..];
    assert Products(lines) == Products([lines[0]]) + Products(rest);
    assert lines[0].product !in Products(rest);
    assert LineHistory(next.ledger, o, w, [lines[0]][0], PendingPayment);
    forall i | 0 <= i < |lines|
      ensures LineHistory(after.ledger, o, w, lines[i], PendingPayment)
    {
      if i > 0 {
        assert rest[i - 1] == lines[i];
      }
    }
  }

  // ---------- closing all lines ----------

  ghost predicate Closed(before: Books, after: Books, o: OrderId, w: WarehouseId, lines: seq<OrderLine>, action: Action)
  {
    && (forall i | 0 <= i < |lines| :: LineHistory(after.ledger, o, w, lines[i], TargetStatus(action)))
    && Untouched(before, after, o, Products(lines))
  }

  /** Closing a held line is one posting of the quantity its RESERVE moved. */
  lemma CloseIsPost(b: Books, opening: map<StockKey, int>, o: OrderId, w: WarehouseId, line: OrderLine,
                    kind: MovementKind)
    requires kind != RESERVE && line.quantity >= 1
    requires Sound(b, opening) && LineHistory(b.ledger, o, w, line, PendingPayment)
    ensures StockKey(w, line.product) in b.stock
    ensures var key := StockKey(w, line.product);
            CloseLine(b, o, w, line.product, kind) == Post(b, CloseMovement(b.stock[key], key, o, line.quantity, kind))
  {
    LatestIsLastEntry(b.ledger, o, line.product);
    HeldInStock(b, opening, o, line.product);
  }

  lemma OneClose(b: Books, opening: map<StockKey, int>, o: OrderId, w: WarehouseId, line: OrderLine, action: Action)
    requires Sound(b, opening) && line.quantity >= 1 && LineHistory(b.ledger, o, w, line, PendingPayment)
    ensures CloseLine(b, o, w, line.product, ClosingKind(action)).Ok?
    ensures var next := CloseLine(b, o, w, line.product, ClosingKind(action)).value;
            Sound(next, opening) && Closed(b, next, o, w, [line], action)
  {
    var key, kind := StockKey(w, line.product), ClosingKind(action);
    LatestIsLastEntry(b.ledger, o, line.product);
    CloseLineSound(b, opening, o, w, line.product, kind);
    CloseIsPost(b, opening, o, w, line, kind);
    CloseAppends(b, o, CloseMovement(b.stock[key], key, o, line.quantity, kind), w, line, action);
  }

  lemma CloseAppends(b: Books, o: OrderId, m: Movement, w: WarehouseId, line: OrderLine, action: Action)
    requires LineHistory(b.ledger, o, w, line, PendingPayment)
    requires m.key == StockKey(w, line.product) && m.order == o && m.kind == ClosingKind(action)
    requires m.delta == if m.kind == RELEASE then line.quantity else 0
    ensures forall after: Books | after.ledger == b.ledger + [m] :: Closed(b, after, o, w, [line], action)
  {
    forall q, p
      ensures Entries(b.ledger + [m], q, p) == Entries(b.ledger, q, p) + if SameLine(m, q, p) then [m] else []
    {
      EntriesAppend(b.ledger, m, q, p);
    }
    assert Products([line])[0] == line.product;
  }

  lemma HeldInStock(b: Books, opening: map<StockKey, int>, o: OrderId, p: ProductId)
    requires Sound(b, opening) && Latest(b.ledger, o, p).Some?
    ensures Latest(b.ledger, o, p).value.key in b.stock
  {
    LatestIsMember(b.ledger, o, p);
  }

  lemma {:induction false} LatestIsMember(l: seq<Movement>, o: OrderId, p: ProductId)
    requires Latest(l, o, p).Some?
    ensures Latest(l, o, p).value in l
  {
    if !SameLine(l[|l| - 1], o, p) {
      LatestIsMember(l[..|l| - 1], o, p);
    }
  }

  lemma {:induction false} CloseLinesSound(b: Books, opening: map<StockKey, int>, o: OrderId, w: WarehouseId,
                                           lines: seq<OrderLine>, action: Action)
    requires Sound(b, opening) && Distinct(lines)
    requires forall i | 0 <= i < |lines| ::
               lines[i].quantity >= 1 && LineHistory(b.ledger, o, w, lines[i], PendingPayment)
    ensures CloseLines(b, o, w, Products(lines), ClosingKind(action)).Ok?
    ensures var after := CloseLines(b, o, w, Products(lines), ClosingKind(action)).value;
            Sound(after, opening) && Closed(b, after, o, w, lines, action)
    decreases |lines|
  {
    if lines != [] {
      var line, rest := lines[0], lines[1..];
      OneClose(b, opening, o, w, line, action);
      var next := CloseLine(b, o, w, line.product, ClosingKind(action)).value;
      assert Products(lines)[0] == line.product && Products(lines)[1..] == Products(rest);
      forall i | 0 <= i < |rest|
        ensures rest[i].quantity >= 1 && LineHistory(next.ledger, o, w, rest[i], PendingPayment)
      {
        assert rest[i] == lines[i + 1] && rest[i].product !in Products([line]);
      }
      CloseLinesSound(next, opening, o, w, rest, action);
      ClosedCons(b, next, CloseLines(next, o, w, Products(rest), ClosingKind(action)).value, o, w, lines, action);
    }
  }

  lemma ClosedCons(b: Books, next: Books, after: Books, o: OrderId, w: WarehouseId, lines: seq<OrderLine>,
                   action: Action)
    requires |lines| > 0 && Distinct(lines)
    requires Closed(b, next, o, w, [lines[0]], action) && Closed(next, after, o, w, lines[1..], action)
    ensures Closed(b, after, o, w, lines, action)
  {
    var rest := lines[1..];
    assert Products(lines) == Products([lines[0]]) + Products(rest);
    assert lines[0].product !in Products(rest);
    assert LineHistory(next.ledger, o, w, [lines[0]][0], TargetStatus(action));
    forall i | 0 <= i < |lines|
      ensures LineHistory(after.ledger, o, w, lines[i], TargetStatus(action))
    {
      if i > 0 {
        assert rest[i - 1] == lines[i];
      }
    }
  }

  // ---------- whole transactions ----------

  ghost predicate OnlyLedgerOf(before: Books, after: Books, o: OrderId) {
    forall q, p | q != o :: Entries(after.ledger, q, p) == Entries(before.ledger, q, p)
  }

  lemma OtherOrdersAgree(t: Tables, after: Tables, o: OrderId, other: OrderId)
    requires other != o && other in t.orders && OrderAgrees(t, other)
    requires OnlyLedgerOf(t.books, after.books, o)
    requires other in after.orders && after.orders[other] == t.orders[other]
    requires other in after.items && other in t.items && after.items[other] == t.items[other]
    ensures OrderAgrees(after, other)
  {
    forall i | 0 <= i < |t.items[other]|
      ensures LineHistory(after.books.ledger, other, t.orders[other].warehouse.value, t.items[other][i],
                          t.orders[other].status)
    {
    }
  }

  /** A committed reservation, and what it did to the books. */
  lemma ReserveCommits(t: Tables, opening: map<StockKey, int>, cmd: ReserveCommand, now: int)
    requires Consistent(t, opening) && ValidLines(cmd.lines) && cmd.order !in t.orders
    requires Unmet(t.books.stock, cmd.warehouse, cmd.lines) == []
    ensures ReserveTx(t, cmd, false, now).Ok?
    ensures var after := ReserveTx(t, cmd, false, now).value;
            && Sound(after.books, opening)
            && Reserved(t.books, after.books, cmd.order, cmd.warehouse, cmd.lines)
            && OnlyLedgerOf(t.books, after.books, cmd.order)
    ensures var after := ReserveTx(t, cmd, false, now).value;
            && after.orders ==
                 t.orders[cmd.order := NewOrderRow(cmd, now).(expiresAt := Some(now + RESERVATION_TTL_MS))]
            && after.items == t.items[cmd.order := cmd.lines]
            && after.payments == t.payments && after.jobs == t.jobs
  {
    ReserveBooks(t, opening, cmd);
    ReserveShape(t, cmd, now, ReserveLines(t.books, cmd.order, cmd.warehouse, cmd.lines).value);
  }

  /** What a reservation that goes through leaves, given the books it leaves. */
  lemma ReserveShape(t: Tables, cmd: ReserveCommand, now: int, books: Books)
    requires cmd.order !in t.orders && Unmet(t.books.stock, cmd.warehouse, cmd.lines) == []
    requires ReserveLines(t.books, cmd.order, cmd.warehouse, cmd.lines) == Ok(books)
    ensures ReserveTx(t, cmd, false, now) ==
            Ok(Tables(t.orders[cmd.order := NewOrderRow(cmd, now).(expiresAt := Some(now + RESERVATION_TTL_MS))],
                      t.items[cmd.order := cmd.lines], t.payments, books, t.jobs))
  {
    var first := NewOrderRow(cmd, now);
    var row := first.(expiresAt := Some(now + RESERVATION_TTL_MS));
    assert t.orders[cmd.order := first][cmd.order := row] == t.orders[cmd.order := row];
  }

  lemma ReserveBooks(t: Tables, opening: map<StockKey, int>, cmd: ReserveCommand)
    requires Consistent(t, opening) && ValidLines(cmd.lines) && cmd.order !in t.orders
    requires Unmet(t.books.stock, cmd.warehouse, cmd.lines) == []
    ensures var r := ReserveLines(t.books, cmd.order, cmd.warehouse, cmd.lines);
            && r.Ok? && Sound(r.value, opening)
            && Reserved(t.books, r.value, cmd.order, cmd.warehouse, cmd.lines)
            && OnlyLedgerOf(t.books, r.value, cmd.order)
  {
    UnmetEmpty(t.books.stock, cmd.warehouse, cmd.lines);
    ReserveLinesSound(t.books, opening, cmd.order, cmd.warehouse, cmd.lines);
  }

  lemma ReservedOrderAgrees(t: Tables, opening: map<StockKey, int>, cmd: ReserveCommand, now: int)
    requires Consistent(t, opening) && ValidLines(cmd.lines) && cmd.order !in t.orders
    requires Unmet(t.books.stock, cmd.warehouse, cmd.lines) == []
    ensures ReserveTx(t, cmd, false, now).Ok?
    ensures var after := ReserveTx(t, cmd, false, now).value;
            cmd.order in after.orders && OrderAgrees(after, cmd.order)
  {
    ReserveCommits(t, opening, cmd, now);
    var after := ReserveTx(t, cmd, false, now).value;
    forall p | p !in Products(cmd.lines)
      ensures Entries(after.books.ledger, cmd.order, p) == []
    {
      assert Entries(t.books.ledger, cmd.order, p) == [];
    }
  }

  /**
   A reservation either commits, and then the tables stay consistent, or is refused for stock; it is
   refused exactly when a product cannot be served, the row lock timed out, or the id is taken.
   */
  lemma ReserveTxConsistent(t: Tables, opening: map<StockKey, int>, cmd: ReserveCommand, lockTimeout: bool, now: int)
    requires Consistent(t, opening) && ValidLines(cmd.lines)
    ensures var r := ReserveTx(t, cmd, lockTimeout, now);
            && (r.Ok? <==> cmd.order !in t.orders && !lockTimeout &&
                           forall i | 0 <= i < |cmd.lines| :: !Short(t.books.stock, cmd.warehouse, cmd.lines[i]))
            && (r.Ok? ==> Consistent(r.value, opening) && OnlyLedgerOf(t.books, r.value.books, cmd.order))
            && (r.Err? ==> r.error == DuplicateOrder || r.error.InsufficientStock?)
  {
    UnmetEmpty(t.books.stock, cmd.warehouse, cmd.lines);
    if cmd.order !in t.orders && !lockTimeout && Unmet(t.books.stock, cmd.warehouse, cmd.lines) == [] {
      ReserveKeepsConsistent(t, opening, cmd, now);
    }
  }

  lemma ReserveKeepsConsistent(t: Tables, opening: map<StockKey, int>, cmd: ReserveCommand, now: int)
    requires Consistent(t, opening) && ValidLines(cmd.lines) && cmd.order !in t.orders
    requires Unmet(t.books.stock, cmd.warehouse, cmd.lines) == []
    ensures ReserveTx(t, cmd, false, now).Ok?
    ensures Consistent(ReserveTx(t, cmd, false, now).value, opening)
    ensures OnlyLedgerOf(t.books, ReserveTx(t, cmd, false, now).value.books, cmd.order)
  {
    ReserveCommits(t, opening, cmd, now);
    ReservedOrderAgrees(t, opening, cmd, now);
    KeepsConsistent(t, opening, ReserveTx(t, cmd, false, now).value, cmd.order);
  }

  /** A transaction on one order keeps the tables consistent once that order and the jobs agree. */
  lemma KeepsConsistent(t: Tables, opening: map<StockKey, int>, after: Tables, o: OrderId)
    requires Consistent(t, opening) && Sound(after.books, opening) && OnlyLedgerOf(t.books, after.books, o)
    requires o in after.orders && OrderAgrees(after, o)
    requires after.orders.Keys == t.orders.Keys + {o} && after.items.Keys == after.orders.Keys
    requires after.payments.Keys <= after.orders.Keys
    requires forall q | q in t.orders && q != o :: after.orders[q] == t.orders[q] && after.items[q] == t.items[q]
    requires forall job :: after.jobs[job] == if job.order != o then t.jobs[job]
               else if after.orders[o].status == Confirmed then 1 else 0
    ensures Consistent(after, opening)
  {
    forall q | q in after.orders
      ensures OrderAgrees(after, q)
    {
      if q != o {
        OtherOrdersAgree(t, after, o, q);
      }
    }
  }

  lemma {:induction false} FanoutCounts(routes: seq<Queue>, o: OrderId, job: Job)
    ensures Fanout(routes, o)[job] == if job.order == o then multiset(routes)[job.queue] else 0
  {
    if routes != [] {
      FanoutCounts(routes[1..], o, job);
      assert routes == [routes[0]] + routes[1..];
    }
  }

  lemma ConfirmedJobs(o: OrderId)
    ensures forall job :: Fanout(ORDER_CONFIRMED_ROUTES, o)[job] == if job.order == o then 1 else 0
  {
    forall job: Job
      ensures Fanout(ORDER_CONFIRMED_ROUTES, o)[job] == if job.order == o then 1 else 0
    {
      FanoutCounts(ORDER_CONFIRMED_ROUTES, o, job);
      match job.queue
      case ShipmentCreate =>
      case CustomerNotify =>
      case AnalyticsRecord =>
    }
  }

  lemma SettleBooks(t: Tables, opening: map<StockKey, int>, o: OrderId, action: Action)
    requires Consistent(t, opening) && o in t.orders && t.orders[o].status == PendingPayment
    ensures t.orders[o].warehouse.Some? && o in t.items
    ensures var w := t.orders[o].warehouse.value;
            var r := CloseLines(t.books, o, w, Products(t.items[o]), ClosingKind(action));
            && r.Ok? && Sound(r.value, opening)
            && Closed(t.books, r.value, o, w, t.items[o], action)
            && OnlyLedgerOf(t.books, r.value, o)
  {
    assert OrderAgrees(t, o);
    CloseLinesSound(t.books, opening, o, t.orders[o].warehouse.value, t.items[o], action);
  }

  /** What a settlement that wins leaves, given the books it leaves. */
  lemma SettleShape(t: Tables, o: OrderId, resolution: Option<PaymentStatus>, action: Action, now: int, books: Books)
    requires o in t.orders && t.orders[o].status == PendingPayment && o in t.items
    requires ClosedBooks(t.books, o, t.orders[o].warehouse, t.items[o], action) == Ok(books)
    ensures SettleTx(t, o, resolution, action, now) ==
            Ok((Tables(t.orders[o := SettledRow(t.orders[o], action, now).value], t.items,
                       ResolvePayment(t.payments, o, resolution, now), books,
                       t.jobs + if action == Confirm then Fanout(ORDER_CONFIRMED_ROUTES, o) else multiset{}), Settled))
    ensures SettledRow(t.orders[o], action, now).value.status == TargetStatus(action)
  {
  }

  lemma SettlePending(t: Tables, opening: map<StockKey, int>, o: OrderId, resolution: Option<PaymentStatus>,
                      action: Action, now: int)
    requires Consistent(t, opening) && o in t.orders && t.orders[o].status == PendingPayment
    ensures SettleTx(t, o, resolution, action, now).Ok? && SettleTx(t, o, resolution, action, now).value.1 == Settled
    ensures var after := SettleTx(t, o, resolution, action, now).value.0;
            && o in after.orders && after.orders[o].status == TargetStatus(action)
            && after.items == t.items && after.payments.Keys == t.payments.Keys
            && (forall q | q in t.orders && q != o :: after.orders[q] == t.orders[q])
            && after.orders.Keys == t.orders.Keys
    ensures var after := SettleTx(t, o, resolution, action, now).value.0;
            && Sound(after.books, opening)
            && OnlyLedgerOf(t.books, after.books, o)
            && Closed(t.books, after.books, o, t.orders[o].warehouse.value, t.items[o], action)
  {
    SettleBooks(t, opening, o, action);
    SettleShape(t, o, resolution, action, now,
                CloseLines(t.books, o, t.orders[o].warehouse.value, Products(t.items[o]), ClosingKind(action)).value);
  }

  lemma SettlePendingJobs(t: Tables, opening: map<StockKey, int>, o: OrderId, resolution: Option<PaymentStatus>,
                          action: Action, now: int)
    requires Consistent(t, opening) && o in t.orders && t.orders[o].status == PendingPayment
    ensures SettleTx(t, o, resolution, action, now).Ok?
    ensures var after := SettleTx(t, o, resolution, action, now).value.0;
            forall job :: after.jobs[job] == if job.order != o then t.jobs[job] else if action == Confirm then 1 else 0
  {
    SettlePending(t, opening, o, resolution, action, now);
    ConfirmedJobs(o);
  }

  /**
   Settling never aborts. On a pending order it wins: the order reaches the action's status, the
   tables stay consistent and no other order changes. On any other order it changes nothing.
   */
  lemma SettleTxConsistent(t: Tables, opening: map<StockKey, int>, o: OrderId, resolution: Option<PaymentStatus>,
                           action: Action, now: int)
    requires Consistent(t, opening) && o in t.orders
    ensures var r := SettleTx(t, o, resolution, action, now);
            && r.Ok?
            && Consistent(r.value.0, opening)
            && (r.value.1 == Settled <==> t.orders[o].status == PendingPayment)
            && (r.value.1 == AlreadySettled ==> r.value.0 == t)
            && (r.value.1 == Settled ==> r.value.0.orders[o].status == TargetStatus(action))
            && (forall q | q in t.orders && q != o :: r.value.0.orders[q] == t.orders[q])
            && OnlyLedgerOf(t.books, r.value.0.books, o)
  {
    if t.orders[o].status == PendingPayment {
      SettlePending(t, opening, o, resolution, action, now);
      SettlePendingJobs(t, opening, o, resolution, action, now);
      SettledOrderAgrees(t, opening, o, resolution, action, now);
      KeepsConsistent(t, opening, SettleTx(t, o, resolution, action, now).value.0, o);
    }
  }

  lemma SettledOrderAgrees(t: Tables, opening: map<StockKey, int>, o: OrderId, resolution: Option<PaymentStatus>,
                           action: Action, now: int)
    requires Consistent(t, opening) && o in t.orders && t.orders[o].status == PendingPayment
    ensures SettleTx(t, o, resolution, action, now).Ok?
    ensures var after := SettleTx(t, o, resolution, action, now).value.0;
            o in after.orders && OrderAgrees(after, o)
  {
    SettlePending(t, opening, o, resolution, action, now);
    assert OrderAgrees(t, o);
    var after := SettleTx(t, o, resolution, action, now).value.0;
    forall p | p !in Products(t.items[o])
      ensures Entries(after.books.ledger, o, p) == []
    {
      assert Entries(t.books.ledger, o, p) == [];
    }
  }
}
