/**
 The two transactions told row by row: when a reservation stands and which products a refusal names, and
 what each transaction leaves in orders, payments and stock, in plain comparisons and amounts.
 */
module TransactionEffects {
  import opened Wrappers
  import opened Books
  import opened BooksLaws
  import opened Orders
  import opened Tables
  import opened TablesLaws
  import opened Sequences

  // ---------- when a reservation stands ----------

  lemma {:induction false} UnmetPlaces(stock: map<StockKey, Balance>, w: WarehouseId, lines: seq<OrderLine>)
    returns (at: seq<nat>)
    ensures Picks(Unmet(stock, w, lines), Products(lines), at)
    ensures forall i: nat | i < |lines| :: i in at <==> Short(stock, w, lines[i])
    decreases |lines|
  {
    at := [];
    if lines != [] {
      var rest := lines[1..];
      at := UnmetPlaces(stock, w, rest);
      var all := ConsPicks(lines[0].product, Unmet(stock, w, rest), Products(rest), at, Short(stock, w, lines[0]));
      assert Products(lines) == [lines[0].product] + Products(rest);
      assert forall i: nat | i < |lines| && i > 0 :: lines[i] == rest[i - 1];
      at := all;
    }
  }

  /** The unmet products are those of the lines whose row is missing or has too little available, in line order. */
  lemma UnmetIs(stock: map<StockKey, Balance>, w: WarehouseId, lines: seq<OrderLine>) returns (at: seq<nat>)
    ensures Picks(Unmet(stock, w, lines), Products(lines), at)
    ensures forall i: nat | i < |lines| ::
              var key := StockKey(w, lines[i].product);
              i in at <==> key !in stock || stock[key].available < lines[i].quantity
  {
    at := UnmetPlaces(stock, w, lines);
  }

  /** A product is named exactly if one of its lines asks for a row that is missing or has too little available. */
  lemma UnmetNames(stock: map<StockKey, Balance>, w: WarehouseId, lines: seq<OrderLine>, p: ProductId)
    ensures p in Unmet(stock, w, lines) <==>
            exists i | 0 <= i < |lines| ::
              lines[i].product == p && (StockKey(w, p) !in stock || stock[StockKey(w, p)].available < lines[i].quantity)
  {
    var at := UnmetIs(stock, w, lines);
    if p in Unmet(stock, w, lines) {
      var k :| 0 <= k < |at| && Unmet(stock, w, lines)[k] == p;
      assert lines[at[k]].product == p;
    }
    if i: nat :|
        i < |lines| && lines[i].product == p
        && (StockKey(w, p) !in stock || stock[StockKey(w, p)].available < lines[i].quantity) {
      assert i in at;
      var k :| 0 <= k < |at| && at[k] == i;
      assert Unmet(stock, w, lines)[k] == p;
    }
  }

  /** A reservation stands exactly for a new id, with locks in time and enough available in every line's row. */
  lemma ReservationStandsIff(t: Tables, opening: map<StockKey, int>, cmd: ReserveCommand, lockTimeout: bool, now: int)
    requires Consistent(t, opening) && ValidLines(cmd.lines)
    ensures ReserveTx(t, cmd, lockTimeout, now).Ok? <==>
            && cmd.order !in t.orders && !lockTimeout
            && forall i | 0 <= i < |cmd.lines| ::
                 && StockKey(cmd.warehouse, cmd.lines[i].product) in t.books.stock
                 && t.books.stock[StockKey(cmd.warehouse, cmd.lines[i].product)].available >= cmd.lines[i].quantity
  {
    ReserveTxConsistent(t, opening, cmd, lockTimeout, now);
  }

  /** A taken id is an error of its own; a timeout names every product, a refusal for stock those it cannot serve. */
  lemma RefusalNames(t: Tables, opening: map<StockKey, int>, cmd: ReserveCommand, lockTimeout: bool, now: int,
                     p: ProductId)
    requires Consistent(t, opening) && ValidLines(cmd.lines) && ReserveTx(t, cmd, lockTimeout, now).Err?
    ensures var error := ReserveTx(t, cmd, lockTimeout, now).error;
            && (error == DuplicateOrder <==> cmd.order in t.orders)
            && (cmd.order !in t.orders ==> error.InsufficientStock?)
            && (cmd.order !in t.orders && lockTimeout ==>
                  (p in error.products <==> exists i | 0 <= i < |cmd.lines| :: cmd.lines[i].product == p))
            && (cmd.order !in t.orders && !lockTimeout ==>
                  (p in error.products <==>
                   exists i | 0 <= i < |cmd.lines| ::
                     && cmd.lines[i].product == p
                     && (StockKey(cmd.warehouse, p) !in t.books.stock
                         || t.books.stock[StockKey(cmd.warehouse, p)].available < cmd.lines[i].quantity)))
  {
    ReserveTxConsistent(t, opening, cmd, lockTimeout, now);
    UnmetNames(t.books.stock, cmd.warehouse, cmd.lines, p);
    UnmetEmpty(t.books.stock, cmd.warehouse, cmd.lines);
    assert forall i | 0 <= i < |cmd.lines| :: Products(cmd.lines)[i] == cmd.lines[i].product;
  }

  // ---------- what a reservation writes ----------

  /** Every line's quantity goes from available to reserved, and no other row is touched. */
  ghost predicate MovedToReserved(before: map<StockKey, Balance>, after: map<StockKey, Balance>, w: WarehouseId,
                                  lines: seq<OrderLine>)
  {
    && after.Keys == before.Keys
    && (forall i | 0 <= i < |lines| ::
          var key := StockKey(w, lines[i].product);
          && key in before
          && after[key] == Balance(before[key].available - lines[i].quantity, before[key].reserved + lines[i].quantity))
    && (forall key | key in before && (key.warehouse != w || key.product !in Products(lines)) ::
          after[key] == before[key])
  }

  lemma {:induction false} ReserveLinesMove(b: Books, o: OrderId, w: WarehouseId, lines: seq<OrderLine>)
    requires Distinct(lines) && ReserveLines(b, o, w, lines).Ok?
    ensures MovedToReserved(b.stock, ReserveLines(b, o, w, lines).value.stock, w, lines)
    decreases |lines|
  {
    if lines != [] {
      var line, rest := lines[0], lines[1..];
      var next := ReserveLine(b, o, w, line).value;
      assert forall i | 0 <= i < |rest| :: rest[i] == lines[i + 1] && rest[i].product != line.product;
      ReserveLinesMove(next, o, w, rest);
      assert Products(lines) == [line.product] + Products(rest);
      assert line.product !in Products(rest);
    }
  }

  /** The rows a reservation leaves: the order as asked, pending for fifteen minutes, and its quantities set aside. */
  lemma ReservationWrites(t: Tables, cmd: ReserveCommand, lockTimeout: bool, now: int)
    requires ValidLines(cmd.lines) && ReserveTx(t, cmd, lockTimeout, now).Ok?
    ensures var after := ReserveTx(t, cmd, lockTimeout, now).value;
            && after.orders ==
                 t.orders[cmd.order := OrderRow(cmd.customer, cmd.totalCents, Some(cmd.warehouse), PendingPayment,
                                                Some(now + 900_000), None, None, None, now)]
            && after.items == t.items[cmd.order := cmd.lines]
            && after.payments == t.payments && after.jobs == t.jobs
            && MovedToReserved(t.books.stock, after.books.stock, cmd.warehouse, cmd.lines)
  {
    ReserveLinesMove(t.books, cmd.order, cmd.warehouse, cmd.lines);
    ReserveShape(t, cmd, now, ReserveLines(t.books, cmd.order, cmd.warehouse, cmd.lines).value);
  }

  // ---------- what a settlement writes ----------

  /** Every line's quantity leaves reserved, going back to available if it is given back; no other row is touched. */
  ghost predicate LeftReserved(before: map<StockKey, Balance>, after: map<StockKey, Balance>, w: WarehouseId,
                               lines: seq<OrderLine>, givenBack: bool)
  {
    && after.Keys == before.Keys
    && (forall i | 0 <= i < |lines| ::
          var key := StockKey(w, lines[i].product);
          && key in before
          && after[key] == Balance(before[key].available + if givenBack then lines[i].quantity else 0,
                                   before[key].reserved - lines[i].quantity))
    && (forall key | key in before && (key.warehouse != w || key.product !in Products(lines)) ::
          after[key] == before[key])
  }

  lemma OneCloseMoves(b: Books, opening: map<StockKey, int>, o: OrderId, w: WarehouseId, line: OrderLine,
                      action: Action)
    requires Sound(b, opening) && line.quantity >= 1 && LineHistory(b.ledger, o, w, line, PendingPayment)
    ensures CloseLine(b, o, w, line.product, ClosingKind(action)).Ok?
    ensures LeftReserved(b.stock, CloseLine(b, o, w, line.product, ClosingKind(action)).value.stock, w, [line],
                         action != Confirm)
  {
    OneClose(b, opening, o, w, line, action);
    CloseIsPost(b, opening, o, w, line, ClosingKind(action));
    assert Products([line])[0] == line.product;
  }

  /** The lines still to close are held as before. */
  lemma OthersStayHeld(b: Books, opening: map<StockKey, int>, o: OrderId, w: WarehouseId, lines: seq<OrderLine>,
                       action: Action)
    requires Sound(b, opening) && Distinct(lines) && lines != []
    requires forall i | 0 <= i < |lines| ::
               lines[i].quantity >= 1 && LineHistory(b.ledger, o, w, lines[i], PendingPayment)
    ensures CloseLine(b, o, w, lines[0].product, ClosingKind(action)).Ok?
    ensures var next, rest := CloseLine(b, o, w, lines[0].product, ClosingKind(action)).value, lines[1..];
            && Sound(next, opening) && Distinct(rest)
            && forall i | 0 <= i < |rest| ::
                 rest[i].quantity >= 1 && LineHistory(next.ledger, o, w, rest[i], PendingPayment)
  {
    OneClose(b, opening, o, w, lines[0], action);
    forall i | 0 <= i < |lines[1..]|
      ensures lines[1..][i] == lines[i + 1] && lines[1..][i].product !in Products([lines[0]])
    {
    }
  }

  lemma {:induction false} CloseLinesMove(b: Books, opening: map<StockKey, int>, o: OrderId, w: WarehouseId,
                                          lines: seq<OrderLine>, action: Action)
    requires Sound(b, opening) && Distinct(lines)
    requires forall i | 0 <= i < |lines| ::
               lines[i].quantity >= 1 && LineHistory(b.ledger, o, w, lines[i], PendingPayment)
    requires CloseLines(b, o, w, Products(lines), ClosingKind(action)).Ok?
    ensures LeftReserved(b.stock, CloseLines(b, o, w, Products(lines), ClosingKind(action)).value.stock, w, lines,
                         action != Confirm)
    decreases |lines|
  {
    if lines != [] {
      var line, rest, kind := lines[0], lines[1..], ClosingKind(action);
      OthersStayHeld(b, opening, o, w, lines, action);
      OneCloseMoves(b, opening, o, w, line, action);
      var next := CloseLine(b, o, w, line.product, kind).value;
      assert Products(lines)[0] == line.product && Products(lines)[1..] == Products(rest);
      CloseLinesMove(next, opening, o, w, rest, action);
      var after := CloseLines(next, o, w, Products(rest), kind).value;
      OneLeaves(b.stock, next.stock, after.stock, w, lines, action != Confirm);
    }
  }

  lemma OneLeaves(before: map<StockKey, Balance>, next: map<StockKey, Balance>, after: map<StockKey, Balance>,
                  w: WarehouseId, lines: seq<OrderLine>, givenBack: bool)
    requires lines != [] && Distinct(lines)
    requires LeftReserved(before, next, w, [lines[0]], givenBack) && LeftReserved(next, after, w, lines[1..], givenBack)
    ensures LeftReserved(before, after, w, lines, givenBack)
  {
    var line, rest := lines[0], lines[1..];
    assert [line][0] == line && Products([line]) == [line.product];
    assert Products(lines) == [line.product] + Products(rest);
    assert forall i | 0 <= i < |rest| :: rest[i] == lines[i + 1] && rest[i].product != line.product;
    assert line.product !in Products(rest);
  }

  /** Only an unresolved payment row takes the provider's answer. */
  predicate PaymentTakes(before: map<OrderId, PaymentRow>, after: map<OrderId, PaymentRow>, o: OrderId,
                         answer: Option<PaymentStatus>, now: int)
  {
    && after.Keys == before.Keys
    && (forall q | q in before && q != o :: after[q] == before[q])
    && (o in before ==>
          after[o] == if answer.Some? && (before[o].status == Pending || before[o].status == Unknown)
                      then before[o].(status := answer.value, settledAt := Some(now))
                      else before[o])
  }

  /** The order's lines, each closed in the ledger as the status says, and the orders' rows but this one. */
  ghost predicate ClosedUnder(t: Tables, after: Tables, o: OrderId, row: OrderRow)
    requires o in t.orders && t.orders[o].warehouse.Some? && o in t.items
  {
    && after.orders == t.orders[o := row] && after.items == t.items
    && forall i | 0 <= i < |t.items[o]| ::
         LineHistory(after.books.ledger, o, t.orders[o].warehouse.value, t.items[o][i], row.status)
  }

  /** Confirmed: sold stock leaves the reservation, and each queue has a job. */
  ghost predicate ConfirmedAs(t: Tables, after: Tables, o: OrderId, answer: Option<PaymentStatus>, now: int)
    requires o in t.orders && t.orders[o].warehouse.Some? && o in t.items
  {
    var row := t.orders[o];
    && ClosedUnder(t, after, o, row.(status := Confirmed, confirmedAt := Some(now), createdAt := now))
    && LeftReserved(t.books.stock, after.books.stock, row.warehouse.value, t.items[o], false)
    && PaymentTakes(t.payments, after.payments, o, answer, now)
    && forall queue :: after.jobs[Job(queue, o)] == 1
  }

  /** Failed: the stock is available again, and nothing is queued. */
  ghost predicate FailedAs(t: Tables, after: Tables, o: OrderId, answer: Option<PaymentStatus>, now: int)
    requires o in t.orders && t.orders[o].warehouse.Some? && o in t.items
  {
    var row := t.orders[o];
    && ClosedUnder(t, after, o, row.(status := PaymentFailed, createdAt := now))
    && LeftReserved(t.books.stock, after.books.stock, row.warehouse.value, t.items[o], true)
    && PaymentTakes(t.payments, after.payments, o, answer, now) && after.jobs == t.jobs
  }

  /** Cancelled, with its reason: the stock is available again, and nothing is queued. */
  ghost predicate CancelledAs(t: Tables, after: Tables, o: OrderId, why: string, answer: Option<PaymentStatus>,
                              now: int)
    requires o in t.orders && t.orders[o].warehouse.Some? && o in t.items
  {
    var row := t.orders[o];
    && ClosedUnder(t, after, o,
                   row.(status := Cancelled, cancelledAt := Some(now), reason := Some(why), createdAt := now))
    && LeftReserved(t.books.stock, after.books.stock, row.warehouse.value, t.items[o], true)
    && PaymentTakes(t.payments, after.payments, o, answer, now) && after.jobs == t.jobs
  }

  lemma SettlementCloses(t: Tables, opening: map<StockKey, int>, o: OrderId, action: Action)
    requires Consistent(t, opening) && o in t.orders && t.orders[o].status == PendingPayment
    ensures t.orders[o].warehouse.Some? && o in t.items
    ensures var r := ClosedBooks(t.books, o, t.orders[o].warehouse, t.items[o], action);
            && r.Ok?
            && LeftReserved(t.books.stock, r.value.stock, t.orders[o].warehouse.value, t.items[o], action != Confirm)
            && Closed(t.books, r.value, o, t.orders[o].warehouse.value, t.items[o], action)
  {
    SettleBooks(t, opening, o, action);
    assert OrderAgrees(t, o);
    CloseLinesMove(t.books, opening, o, t.orders[o].warehouse.value, t.items[o], action);
  }

  /** The action's own reading of the tables it leaves. */
  ghost predicate DoneAs(t: Tables, after: Tables, o: OrderId, answer: Option<PaymentStatus>, action: Action, now: int)
    requires o in t.orders && t.orders[o].warehouse.Some? && o in t.items
  {
    match action
    case Confirm => ConfirmedAs(t, after, o, answer, now)
    case Fail => FailedAs(t, after, o, answer, now)
    case Cancel(why) => CancelledAs(t, after, o, why, answer, now)
  }

  lemma WritesMean(t: Tables, o: OrderId, answer: Option<PaymentStatus>, action: Action, now: int, books: Books)
    requires o in t.orders && t.orders[o].status == PendingPayment && t.orders[o].warehouse.Some? && o in t.items
    requires LeftReserved(t.books.stock, books.stock, t.orders[o].warehouse.value, t.items[o], action != Confirm)
    requires Closed(t.books, books, o, t.orders[o].warehouse.value, t.items[o], action)
    requires forall queue :: t.jobs[Job(queue, o)] == 0
    ensures var jobs := t.jobs + if action == Confirm then Fanout(ORDER_CONFIRMED_ROUTES, o) else multiset{};
            var after := Tables(t.orders[o := SettledRow(t.orders[o], action, now).value], t.items,
                                ResolvePayment(t.payments, o, answer, now), books, jobs);
            DoneAs(t, after, o, answer, action, now)
  {
    PaymentIsTaken(t.payments, o, answer, now);
    match action
    case Confirm =>
      ConfirmedJobs(o);
    case Fail =>
      assert t.jobs + multiset{} == t.jobs;
    case Cancel(_) =>
      assert t.jobs + multiset{} == t.jobs;
  }

  lemma PaymentIsTaken(payments: map<OrderId, PaymentRow>, o: OrderId, answer: Option<PaymentStatus>, now: int)
    ensures PaymentTakes(payments, ResolvePayment(payments, o, answer, now), o, answer, now)
  {
  }

  /** What settling a pending order leaves, action by action. */
  lemma SettlementWrites(t: Tables, opening: map<StockKey, int>, o: OrderId, answer: Option<PaymentStatus>,
                         action: Action, now: int)
    requires Consistent(t, opening) && o in t.orders && t.orders[o].status == PendingPayment
    ensures t.orders[o].warehouse.Some? && o in t.items && SettleTx(t, o, answer, action, now).Ok?
    ensures DoneAs(t, SettleTx(t, o, answer, action, now).value.0, o, answer, action, now)
  {
    SettlementCloses(t, opening, o, action);
    var books := ClosedBooks(t.books, o, t.orders[o].warehouse, t.items[o], action).value;
    SettleShape(t, o, answer, action, now, books);
    WritesMean(t, o, answer, action, now, books);
  }
}
