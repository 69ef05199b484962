/**
 A transaction's effect depends only on the rows it locks: computing it on those rows alone and
 installing the result is the same as running it on the whole database.
 */
module Locality {
  import opened Wrappers
  import opened Books
  import opened BooksLaws
  import opened Orders
  import opened Tables
  import opened Protocol
  import opened Locking

  // ---------- one order's part of the ledger ----------

  lemma MovesAppend(l: seq<Movement>, m: Movement, o: OrderId)
    ensures MovesOf(l + [m], o) == MovesOf(l, o) + if m.order == o then [m] else []
  {
    assert (l + [m])[..|l|] == l;
  }

  lemma {:induction false} LatestOfMoves(l: seq<Movement>, o: OrderId, p: ProductId)
    ensures Latest(MovesOf(l, o), o, p) == Latest(l, o, p)
  {
    if l != [] {
      var past, m := l[..|l| - 1], l[|l| - 1];
      LatestOfMoves(past, o, p);
      if m.order == o {
        LatestAppend(MovesOf(past, o), m, o, p);
      } else {
        assert MovesOf(l, o) == MovesOf(past, o);
      }
    }
  }

  /** The small books agree with the large ones on the rows they have and on the order's movements. */
  ghost predicate Mirrors(mini: Books, full: Books, o: OrderId) {
    && (forall k | k in mini.stock :: k in full.stock && mini.stock[k] == full.stock[k])
    && mini.ledger == MovesOf(full.ledger, o)
  }

  ghost predicate Covers(mini: Books, full: Books, w: WarehouseId, ps: seq<ProductId>) {
    forall p | p in ps && StockKey(w, p) in full.stock :: StockKey(w, p) in mini.stock
  }

  /** Both books moved on by the same postings. */
  ghost predicate Tracks(mini: Books, full: Books, mini': Books, full': Books) {
    && mini'.stock.Keys == mini.stock.Keys
    && full'.stock == full.stock + mini'.stock
    && mini.ledger <= mini'.ledger
    && full'.ledger == full.ledger + mini'.ledger[|mini.ledger|..]
  }

  /** The same refusal on both, or the same postings. */
  ghost predicate SameOutcome(mini: Books, full: Books, o: OrderId, local: Result<Books, TxError>,
                              global: Result<Books, TxError>)
  {
    match (local, global)
    case (Err(a), Err(b)) => a == b
    case (Ok(a), Ok(b)) => Tracks(mini, full, a, b) && Mirrors(a, b, o) && Appended(mini, a, o)
    case _ => false
  }

  ghost predicate Appended(before: Books, after: Books, o: OrderId) {
    before.ledger <= after.ledger && forall i | |before.ledger| <= i < |after.ledger| :: after.ledger[i].order == o
  }

  lemma PostLocal(mini: Books, full: Books, o: OrderId, m: Movement)
    requires Mirrors(mini, full, o) && m.order == o && (m.key in full.stock ==> m.key in mini.stock)
    ensures SameOutcome(mini, full, o, Post(mini, m), Post(full, m))
  {
    MovesAppend(full.ledger, m, o);
    if Post(mini, m).Ok? {
      assert Post(full, m).value.stock == full.stock + Post(mini, m).value.stock;
    }
  }

  lemma NothingLocal(mini: Books, full: Books, o: OrderId)
    requires Mirrors(mini, full, o)
    ensures SameOutcome(mini, full, o, Ok(mini), Ok(full))
  {
    assert full.stock + mini.stock == full.stock;
    assert full.ledger + [] == full.ledger;
  }

  lemma TracksTwice(m0: Books, f0: Books, m1: Books, f1: Books, m2: Books, f2: Books, o: OrderId)
    requires Tracks(m0, f0, m1, f1) && Tracks(m1, f1, m2, f2)
    requires Appended(m0, m1, o) && Appended(m1, m2, o)
    ensures Tracks(m0, f0, m2, f2) && Appended(m0, m2, o)
  {
    assert m2.ledger[|m0.ledger|..] == m1.ledger[|m0.ledger|..] + m2.ledger[|m1.ledger|..];
    assert f1.stock + m2.stock == f0.stock + m2.stock;
  }

  lemma {:induction false} ReserveLinesLocal(mini: Books, full: Books, o: OrderId, w: WarehouseId,
                                             lines: seq<OrderLine>)
    requires Mirrors(mini, full, o) && Covers(mini, full, w, Products(lines))
    ensures SameOutcome(mini, full, o, ReserveLines(mini, o, w, lines), ReserveLines(full, o, w, lines))
    decreases |lines|
  {
    if lines == [] {
      NothingLocal(mini, full, o);
    } else {
      var key := StockKey(w, lines[0].product);
      assert Products(lines)[0] == lines[0].product;
      if key in full.stock {
        PostLocal(mini, full, o, ReserveMovement(full.stock[key], o, w, lines[0]));
        if ReserveLine(full, o, w, lines[0]).Ok? {
          var mini1, full1 := ReserveLine(mini, o, w, lines[0]).value, ReserveLine(full, o, w, lines[0]).value;
          CoversRest(mini, full, mini1, full1, w, Products(lines));
          assert Products(lines)[1..] == Products(lines[1..]);
          ReserveLinesLocal(mini1, full1, o, w, lines[1..]);
          if ReserveLines(full, o, w, lines).Ok? {
            TracksTwice(mini, full, mini1, full1, ReserveLines(mini, o, w, lines).value,
                        ReserveLines(full, o, w, lines).value, o);
          }
        }
      }
    }
  }

  lemma CoversRest(mini: Books, full: Books, mini1: Books, full1: Books, w: WarehouseId, ps: seq<ProductId>)
    requires |ps| > 0 && Covers(mini, full, w, ps) && Tracks(mini, full, mini1, full1)
    requires forall k | k in mini.stock :: k in full.stock
    ensures Covers(mini1, full1, w, ps[1..])
  {
  }

  lemma {:induction false} CloseLinesLocal(mini: Books, full: Books, o: OrderId, w: WarehouseId, ps: seq<ProductId>,
                                           kind: MovementKind)
    requires kind != RESERVE && Mirrors(mini, full, o) && Covers(mini, full, w, ps)
    ensures SameOutcome(mini, full, o, CloseLines(mini, o, w, ps, kind), CloseLines(full, o, w, ps, kind))
    decreases |ps|
  {
    if ps == [] {
      NothingLocal(mini, full, o);
    } else {
      CloseLineLocal(mini, full, o, w, ps[0], kind);
      if CloseLine(full, o, w, ps[0], kind).Ok? {
        var mini1, full1 := CloseLine(mini, o, w, ps[0], kind).value, CloseLine(full, o, w, ps[0], kind).value;
        CoversRest(mini, full, mini1, full1, w, ps);
        CloseLinesLocal(mini1, full1, o, w, ps[1..], kind);
        if CloseLines(full, o, w, ps, kind).Ok? {
          TracksTwice(mini, full, mini1, full1, CloseLines(mini, o, w, ps, kind).value,
                      CloseLines(full, o, w, ps, kind).value, o);
        }
      }
    }
  }

  lemma CloseLineLocal(mini: Books, full: Books, o: OrderId, w: WarehouseId, p: ProductId, kind: MovementKind)
    requires kind != RESERVE && Mirrors(mini, full, o) && Covers(mini, full, w, [p])
    ensures SameOutcome(mini, full, o, CloseLine(mini, o, w, p, kind), CloseLine(full, o, w, p, kind))
  {
    LatestOfMoves(full.ledger, o, p);
    var key := StockKey(w, p);
    assert p in [p];
    if IsHeld(full.ledger, o, p) && key in full.stock {
      PostLocal(mini, full, o, CloseMovement(full.stock[key], key, o, Abs(Latest(full.ledger, o, p).value.delta),
                                             kind));
    } else {
      NothingLocal(mini, full, o);
    }
  }

  lemma {:induction false} UnmetLocal(mini: Books, full: Books, o: OrderId, w: WarehouseId, lines: seq<OrderLine>)
    requires Mirrors(mini, full, o) && Covers(mini, full, w, Products(lines))
    ensures Unmet(mini.stock, w, lines) == Unmet(full.stock, w, lines)
  {
    if lines != [] {
      assert Products(lines)[0] == lines[0].product && Products(lines)[1..] == Products(lines[1..]);
      UnmetLocal(mini, full, o, w, lines[1..]);
    }
  }

  // ---------- whole transactions ----------

  /** What the transaction read is what the rows hold. */
  ghost predicate Fresh(t: Tables, seen: map<Lock, Value>) {
    forall l | l in seen :: seen[l] == ValueOf(t, l)
  }

  ghost predicate AllSeen(t: Tables, work: Work, seen: map<Lock, Value>) {
    forall l | l in Plan(t.books.stock.Keys, work, seen) :: l in seen
  }

  lemma MiniMirrors(t: Tables, o: OrderId, seen: map<Lock, Value>)
    requires Fresh(t, seen) && OrderLock(o) in seen
    ensures var mini := Mini(o, seen);
            && Mirrors(mini.books, t.books, o)
            && (o in mini.orders <==> o in t.orders) && (o in t.orders ==> mini.orders[o] == t.orders[o])
            && (o in mini.items <==> o in t.items) && (o in t.items ==> mini.items[o] == t.items[o])
  {
    assert seen[OrderLock(o)] == ValueOf(t, OrderLock(o));
    forall k | k in Mini(o, seen).books.stock
      ensures k in t.books.stock && Mini(o, seen).books.stock[k] == t.books.stock[k]
    {
      assert seen[StockLock(k)] == ValueOf(t, StockLock(k));
    }
  }

  lemma MiniPayment(t: Tables, o: OrderId, seen: map<Lock, Value>)
    requires Fresh(t, seen) && PaymentLock(o) in seen
    ensures var mini := Mini(o, seen);
            (o in mini.payments <==> o in t.payments) && (o in t.payments ==> mini.payments[o] == t.payments[o])
  {
    assert seen[PaymentLock(o)] == ValueOf(t, PaymentLock(o));
  }

  /** Every row the mini tables hold is the row of the shared tables. */
  ghost predicate Within(mini: Tables, t: Tables, o: OrderId) {
    && (forall q | q in mini.orders :: q == o && q in t.orders && mini.orders[q] == t.orders[q])
    && (forall q | q in mini.items :: q == o && q in t.items && mini.items[q] == t.items[q])
    && (forall q | q in mini.payments :: q == o && q in t.payments && mini.payments[q] == t.payments[q])
    && (forall k | k in mini.books.stock :: k in t.books.stock && mini.books.stock[k] == t.books.stock[k])
    && mini.jobs == multiset{}
  }

  lemma MiniWithin(t: Tables, o: OrderId, seen: map<Lock, Value>)
    requires Fresh(t, seen)
    ensures Within(Mini(o, seen), t, o)
  {
    forall k | k in Mini(o, seen).books.stock
      ensures k in t.books.stock && Mini(o, seen).books.stock[k] == t.books.stock[k]
    {
      assert seen[StockLock(k)] == ValueOf(t, StockLock(k));
    }
    if OrderLock(o) in seen {
      assert seen[OrderLock(o)] == ValueOf(t, OrderLock(o));
    }
    if PaymentLock(o) in seen {
      assert seen[PaymentLock(o)] == ValueOf(t, PaymentLock(o));
    }
  }

  lemma InstallNothing(t: Tables, mini: Tables, o: OrderId)
    requires Within(mini, t, o)
    ensures Install(t, mini, mini) == t
  {
    assert t.orders + mini.orders == t.orders;
    assert t.items + mini.items == t.items;
    assert t.payments + mini.payments == t.payments;
    assert t.books.stock + mini.books.stock == t.books.stock;
    assert mini.books.ledger[|mini.books.ledger|..] == [];
  }

  lemma {:induction false} StockLocksCover(catalog: set<StockKey>, w: WarehouseId, ps: seq<ProductId>, p: ProductId)
    requires p in ps && StockKey(w, p) in catalog
    ensures StockLock(StockKey(w, p)) in StockLocks(catalog, w, ps)
  {
    if p != ps[0] {
      StockLocksCover(catalog, w, ps[1..], p);
    }
  }

  lemma {:induction false} InsertKeeps(p: ProductId, s: seq<ProductId>)
    ensures forall q :: q in Insert(p, s) <==> q == p || q in s
  {
    if s != [] && p > s[0] {
      InsertKeeps(p, s[1..]);
      assert s == [s[0]] + s[1..];
    }
  }

  lemma {:induction false} SortedKeeps(ps: seq<ProductId>)
    ensures forall q :: q in Sorted(ps) <==> q in ps
  {
    if ps != [] {
      SortedKeeps(ps[1..]);
      InsertKeeps(ps[0], Sorted(ps[1..]));
      assert ps == [ps[0]] + ps[1..];
    }
  }

  lemma MiniCovers(t: Tables, o: OrderId, seen: map<Lock, Value>, w: WarehouseId, ps: seq<ProductId>)
    requires Fresh(t, seen)
    requires forall l | l in StockLocks(t.books.stock.Keys, w, Sorted(ps)) :: l in seen
    ensures Covers(Mini(o, seen).books, t.books, w, ps)
  {
    forall p | p in ps && StockKey(w, p) in t.books.stock
      ensures StockKey(w, p) in Mini(o, seen).books.stock
    {
      SortedKeeps(ps);
      StockLocksCover(t.books.stock.Keys, w, Sorted(ps), p);
      var l := StockLock(StockKey(w, p));
      assert seen[l] == ValueOf(t, l);
    }
  }

  /** Running on the mini tables and installing is running on the shared ones. */
  ghost predicate Same(t: Tables, mini: Tables, work: Work) {
    var local := Effect(mini, work);
    |mini.books.ledger| <= |local.books.ledger| && Install(t, mini, local) == Effect(t, work)
  }

  lemma ReserveInstalls(t: Tables, mini: Tables, cmd: ReserveCommand, now: int)
    requires Within(mini, t, cmd.order)
    requires ReserveTx(t, cmd, false, now).Ok? && ReserveTx(mini, cmd, false, now).Ok?
    requires Tracks(mini.books, t.books, ReserveTx(mini, cmd, false, now).value.books,
                    ReserveTx(t, cmd, false, now).value.books)
    ensures Same(t, mini, ReserveWork(cmd, now))
  {
    var local, global := ReserveTx(mini, cmd, false, now).value, ReserveTx(t, cmd, false, now).value;
    assert t.orders + local.orders == global.orders;
    assert t.items + local.items == global.items;
    assert t.payments + local.payments == global.payments;
    assert t.jobs + local.jobs == global.jobs;
  }

  lemma ReserveOutcome(t: Tables, mini: Tables, cmd: ReserveCommand, now: int)
    requires Mirrors(mini.books, t.books, cmd.order)
    requires cmd.order in mini.orders <==> cmd.order in t.orders
    requires cmd.order !in t.orders ==> Covers(mini.books, t.books, cmd.warehouse, Products(cmd.lines))
    ensures var local, global := ReserveTx(mini, cmd, false, now), ReserveTx(t, cmd, false, now);
            && (local.Ok? <==> global.Ok?)
            && (local.Ok? ==> Tracks(mini.books, t.books, local.value.books, global.value.books))
  {
    if cmd.order !in t.orders {
      UnmetLocal(mini.books, t.books, cmd.order, cmd.warehouse, cmd.lines);
      ReserveLinesLocal(mini.books, t.books, cmd.order, cmd.warehouse, cmd.lines);
    }
  }

  lemma ReserveSame(t: Tables, mini: Tables, cmd: ReserveCommand, now: int)
    requires Within(mini, t, cmd.order) && Mirrors(mini.books, t.books, cmd.order)
    requires cmd.order in mini.orders <==> cmd.order in t.orders
    requires cmd.order !in t.orders ==> Covers(mini.books, t.books, cmd.warehouse, Products(cmd.lines))
    ensures Same(t, mini, ReserveWork(cmd, now))
  {
    ReserveOutcome(t, mini, cmd, now);
    if ReserveTx(t, cmd, false, now).Ok? {
      ReserveInstalls(t, mini, cmd, now);
    } else {
      InstallNothing(t, mini, cmd.order);
    }
  }

  lemma ReserveLocal(t: Tables, cmd: ReserveCommand, now: int, seen: map<Lock, Value>)
    requires Fresh(t, seen) && AllSeen(t, ReserveWork(cmd, now), seen)
    ensures Same(t, Mini(cmd.order, seen), ReserveWork(cmd, now))
  {
    var o := cmd.order;
    var plan := Plan(t.books.stock.Keys, ReserveWork(cmd, now), seen);
    assert plan[0] == OrderLock(o);
    MiniMirrors(t, o, seen);
    MiniWithin(t, o, seen);
    if o !in t.orders {
      assert seen[OrderLock(o)] == ValueOf(t, OrderLock(o));
      var rest := StockLocks(t.books.stock.Keys, cmd.warehouse, Sorted(Products(cmd.lines)));
      assert plan == [OrderLock(o)] + rest;
      assert forall l | l in rest :: l in plan;
      MiniCovers(t, o, seen, cmd.warehouse, Products(cmd.lines));
    }
    ReserveSame(t, Mini(o, seen), cmd, now);
  }

  /** Closing the order's lines comes to the same on what was read as on everything. */
  lemma CloseLocal(t: Tables, mini: Tables, o: OrderId, action: Action)
    requires Mirrors(mini.books, t.books, o) && o in t.orders
    requires t.orders[o].warehouse.Some? && o in t.items ==>
               Covers(mini.books, t.books, t.orders[o].warehouse.value, Products(t.items[o]))
    ensures var lines := if o in t.items then t.items[o] else [];
            SameOutcome(mini.books, t.books, o, ClosedBooks(mini.books, o, t.orders[o].warehouse, lines, action),
                        ClosedBooks(t.books, o, t.orders[o].warehouse, lines, action))
  {
    var lines := if o in t.items then t.items[o] else [];
    if t.orders[o].warehouse.Some? {
      assert Products([]) == [];
      CloseLinesLocal(mini.books, t.books, o, t.orders[o].warehouse.value, Products(lines), ClosingKind(action));
    } else {
      NothingLocal(mini.books, t.books, o);
    }
  }

  lemma SettleSame(t: Tables, mini: Tables, o: OrderId, payment: Option<PaymentStatus>, action: Action, now: int)
    requires Within(mini, t, o) && Mirrors(mini.books, t.books, o)
    requires (o in mini.orders <==> o in t.orders) && (o in mini.items <==> o in t.items)
    requires payment.Some? && o in t.orders && t.orders[o].status == PendingPayment ==>
               (o in mini.payments <==> o in t.payments)
    requires o in t.orders && t.orders[o].status == PendingPayment && t.orders[o].warehouse.Some? && o in t.items ==>
               Covers(mini.books, t.books, t.orders[o].warehouse.value, Products(t.items[o]))
    ensures Same(t, mini, SettleWork(o, payment, action, now))
  {
    InstallNothing(t, mini, o);
    if o in t.orders && t.orders[o].status == PendingPayment {
      CloseLocal(t, mini, o, action);
      if SettleTx(t, o, payment, action, now).Ok? {
        SettleInstalls(t, mini, o, payment, action, now);
      }
    }
  }

  lemma SettleInstalls(t: Tables, mini: Tables, o: OrderId, payment: Option<PaymentStatus>, action: Action, now: int)
    requires Within(mini, t, o) && o in mini.orders && o in t.orders && t.orders[o].status == PendingPayment
    requires payment.Some? ==> (o in mini.payments <==> o in t.payments)
    requires SettleTx(t, o, payment, action, now).Ok? && SettleTx(mini, o, payment, action, now).Ok?
    requires Tracks(mini.books, t.books, SettleTx(mini, o, payment, action, now).value.0.books,
                    SettleTx(t, o, payment, action, now).value.0.books)
    ensures Same(t, mini, SettleWork(o, payment, action, now))
  {
    var local, global := SettleTx(mini, o, payment, action, now).value.0, SettleTx(t, o, payment, action, now).value.0;
    assert t.orders + local.orders == global.orders;
    assert t.items + local.items == global.items;
    assert t.payments + local.payments == global.payments;
    assert t.jobs + local.jobs == global.jobs;
  }

  lemma SettleLocal(t: Tables, o: OrderId, payment: Option<PaymentStatus>, action: Action, now: int,
                    seen: map<Lock, Value>)
    requires Fresh(t, seen) && AllSeen(t, SettleWork(o, payment, action, now), seen)
    ensures Same(t, Mini(o, seen), SettleWork(o, payment, action, now))
  {
    var plan := Plan(t.books.stock.Keys, SettleWork(o, payment, action, now), seen);
    assert plan[0] == OrderLock(o);
    MiniMirrors(t, o, seen);
    MiniWithin(t, o, seen);
    if o in t.orders && t.orders[o].status == PendingPayment {
      var read := seen[OrderLock(o)];
      assert read == ValueOf(t, OrderLock(o));
      assert plan == [OrderLock(o)] + RestOfSettle(t.books.stock.Keys, o, payment, read);
      assert forall l | l in RestOfSettle(t.books.stock.Keys, o, payment, read) :: l in plan;
      if payment.Some? {
        MiniPayment(t, o, seen);
      }
      if t.orders[o].warehouse.Some? && o in t.items {
        assert forall l |
            l in StockLocks(t.books.stock.Keys, t.orders[o].warehouse.value, Sorted(Products(t.items[o]))) ::
            l in RestOfSettle(t.books.stock.Keys, o, payment, read);
        MiniCovers(t, o, seen, t.orders[o].warehouse.value, Products(t.items[o]));
      }
    }
    SettleSame(t, Mini(o, seen), o, payment, action, now);
  }

  lemma InsertPaymentLocal(t: Tables, o: OrderId, now: int, seen: map<Lock, Value>)
    requires Fresh(t, seen) && AllSeen(t, InsertPaymentWork(o, now), seen)
    ensures Same(t, Mini(o, seen), InsertPaymentWork(o, now))
  {
    var plan := Plan(t.books.stock.Keys, InsertPaymentWork(o, now), seen);
    assert plan[0] == OrderLock(o) && plan[1] == PaymentLock(o);
    MiniMirrors(t, o, seen);
    MiniPayment(t, o, seen);
    MiniWithin(t, o, seen);
    PaymentInstalls(t, Mini(o, seen), InsertPaymentWork(o, now), o);
  }

  lemma SaveChargeLocal(t: Tables, o: OrderId, status: PaymentStatus, now: int, seen: map<Lock, Value>)
    requires Fresh(t, seen) && AllSeen(t, SaveChargeWork(o, status, now), seen)
    ensures Same(t, Mini(o, seen), SaveChargeWork(o, status, now))
  {
    var plan := Plan(t.books.stock.Keys, SaveChargeWork(o, status, now), seen);
    assert plan[0] == PaymentLock(o);
    MiniPayment(t, o, seen);
    MiniWithin(t, o, seen);
    PaymentInstalls(t, Mini(o, seen), SaveChargeWork(o, status, now), o);
  }

  lemma PaymentInstalls(t: Tables, mini: Tables, work: Work, o: OrderId)
    requires Within(mini, t, o) && (o in mini.payments <==> o in t.payments)
    requires (work.InsertPaymentWork? && work.order == o && (o in mini.orders <==> o in t.orders))
             || (work.SaveChargeWork? && work.order == o)
    ensures Same(t, mini, work)
  {
    InstallNothing(t, mini, o);
    var local, global := Effect(mini, work), Effect(t, work);
    assert t.orders + local.orders == global.orders;
    assert t.items + local.items == global.items;
    assert t.payments + local.payments == global.payments;
    assert t.jobs + local.jobs == global.jobs;
  }

  /**
   A transaction that has locked what it plans to, and read what those rows hold, commits exactly
   what it would have done had it run alone on the tables of that moment.
   */
  lemma CommitIsAtomic(t: Tables, work: Work, seen: map<Lock, Value>)
    requires Fresh(t, seen) && AllSeen(t, work, seen)
    ensures Committed(t, Tx(work, seen)) == Effect(t, work)
  {
    match work
    case ReserveWork(cmd, now) => ReserveLocal(t, cmd, now, seen);
    case SettleWork(o, payment, action, now) => SettleLocal(t, o, payment, action, now, seen);
    case InsertPaymentWork(o, now) => InsertPaymentLocal(t, o, now, seen);
    case SaveChargeWork(o, status, now) => SaveChargeLocal(t, o, status, now, seen);
  }
}
