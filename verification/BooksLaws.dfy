/** Conservation, replay and the CHECK constraints, kept by every posting the service makes. */
module BooksLaws {
  import opened Wrappers
  import opened Books

  // ---------- appending to the ledger ----------

  lemma LatestAppend(l: seq<Movement>, m: Movement, o: OrderId, p: ProductId)
    ensures Latest(l + [m], o, p) == if SameLine(m, o, p) then Some(m) else Latest(l, o, p)
  {
    assert (l + [m])[..|l|] == l;
  }

  lemma {:induction false} LatestNone(l: seq<Movement>, o: OrderId, p: ProductId, i: nat)
    requires Latest(l, o, p) == None && i < |l|
    ensures !SameLine(l[i], o, p)
  {
    if i < |l| - 1 {
      LatestNone(l[..|l| - 1], o, p, i);
    }
  }

  lemma LegalAppend(l: seq<Movement>, m: Movement)
    requires LegalLedger(l) && LegalNext(l, m)
    ensures LegalLedger(l + [m])
  {
    assert (l + [m])[..|l|] == l;
  }

  lemma {:induction false} LegalPrefix(l: seq<Movement>, n: nat)
    requires LegalLedger(l) && n <= |l|
    ensures LegalLedger(l[..n])
  {
    if n == |l| {
      assert l[..n] == l;
    } else {
      LegalPrefix(l[..|l| - 1], n);
      assert l[..|l| - 1][..n] == l[..n];
    }
  }

  lemma {:induction false} LatestBelongs(l: seq<Movement>, o: OrderId, p: ProductId)
    ensures var latest := Latest(l, o, p); latest.Some? ==> SameLine(latest.value, o, p)
  {
    if l != [] {
      LatestBelongs(l[..|l| - 1], o, p);
    }
  }

  // ---------- how a posting moves the tallies ----------

  /** What one line reserved at `key`, by its RESERVE movements alone. */
  function LineQuantity(l: seq<Movement>, key: StockKey, o: OrderId): int {
    if l == [] then 0
    else LineQuantity(l[..|l| - 1], key, o) +
         var m := l[|l| - 1];
         if m.kind == RESERVE && m.key == key && m.order == o then -m.delta else 0
  }

  lemma {:induction false} NoLineNoQuantity(l: seq<Movement>, key: StockKey, o: OrderId)
    requires Latest(l, o, key.product) == None
    ensures LineQuantity(l, key, o) == 0
  {
    if l != [] {
      NoLineNoQuantity(l[..|l| - 1], key, o);
    }
  }

  lemma {:induction false} HeldLineQuantity(l: seq<Movement>, key: StockKey, o: OrderId)
    requires LegalLedger(l) && IsHeld(l, o, key.product)
    ensures var held := Latest(l, o, key.product).value;
            held.delta < 0 && LineQuantity(l, key, o) == if held.key == key then -held.delta else 0
  {
    var past, m := l[..|l| - 1], l[|l| - 1];
    if SameLine(m, o, key.product) {
      NoLineNoQuantity(past, key, o);
    } else {
      HeldLineQuantity(past, key, o);
    }
  }

  lemma {:induction false} TallyAfterReserve(l: seq<Movement>, m: Movement, n: nat, key: StockKey, kind: MovementKind)
    requires n <= |l| && LegalNext(l, m) && m.kind == RESERVE
    ensures Tally(l + [m], n, key, kind) == Tally(l, n, key, kind)
  {
    if n > 0 {
      TallyAfterReserve(l, m, n - 1, key, kind);
      LatestAppend(l, m, l[n - 1].order, key.product);
      LatestNone(l, m.order, m.key.product, n - 1);
    }
  }

  lemma {:induction false} TallyAfterClose(l: seq<Movement>, m: Movement, n: nat, key: StockKey, kind: MovementKind)
    requires n <= |l| && LegalNext(l, m) && m.kind != RESERVE
    ensures Tally(l + [m], n, key, kind) ==
            Tally(l, n, key, kind)
            - (if kind == RESERVE && key.product == m.key.product then LineQuantity(l[..n], key, m.order) else 0)
            + (if kind == m.kind && key.product == m.key.product then LineQuantity(l[..n], key, m.order) else 0)
  {
    if n > 0 {
      TallyAfterClose(l, m, n - 1, key, kind);
      LatestAppend(l, m, l[n - 1].order, key.product);
      assert l[..n][..n - 1] == l[..n - 1];
    }
  }

  /** A held line's quantity is part of what is outstanding at its key. */
  lemma {:induction false} TallyCoversHeld(l: seq<Movement>, n: nat, key: StockKey, o: OrderId)
    requires LegalLedger(l) && n <= |l| && IsHeld(l, o, key.product)
    ensures 0 <= LineQuantity(l[..n], key, o) <= Tally(l, n, key, RESERVE)
  {
    if n > 0 {
      TallyCoversHeld(l, n - 1, key, o);
      assert l[..n][..n - 1] == l[..n - 1];
      LegalPrefix(l, n);
    }
  }

  lemma {:induction false} TallyNonNegative(l: seq<Movement>, n: nat, key: StockKey, kind: MovementKind)
    requires LegalLedger(l) && n <= |l|
    ensures 0 <= Tally(l, n, key, kind)
  {
    if n > 0 {
      TallyNonNegative(l, n - 1, key, kind);
      LegalPrefix(l, n);
      assert l[..n][n - 1] == l[n - 1];
    }
  }

  lemma ReplayAppend(l: seq<Movement>, m: Movement, key: StockKey, opening: int)
    requires LegalNext(l, m)
    ensures var before, after := Replay(l, key, opening), Replay(l + [m], key, opening);
            var held := Latest(l, m.order, m.key.product);
            after == if m.key != key then before
                     else if m.kind == COMMIT then Balance(before.available, before.reserved + held.value.delta)
                     else Balance(before.available + m.delta, before.reserved - m.delta)
  {
    assert (l + [m])[..|l|] == l;
  }

  lemma LatestAtAppend(l: seq<Movement>, m: Movement, key: StockKey)
    ensures LatestAt(l + [m], key) == if m.key == key then Some(m) else LatestAt(l, key)
  {
    assert (l + [m])[..|l|] == l;
  }

  // ---------- one posting ----------

  lemma PostReserveKeepsBalance(b: Books, o: OrderId, w: WarehouseId, line: OrderLine, key: StockKey, opening: int)
    requires LegalLedger(b.ledger) && StockKey(w, line.product) in b.stock
    requires Latest(b.ledger, o, line.product) == None && line.quantity > 0
    requires line.quantity <= b.stock[StockKey(w, line.product)].available
    requires ReserveLine(b, o, w, line).Ok?
    requires key in b.stock && Balanced(b, key, opening)
    ensures key in ReserveLine(b, o, w, line).value.stock && Balanced(ReserveLine(b, o, w, line).value, key, opening)
  {
    var m := ReserveMovement(b.stock[StockKey(w, line.product)], o, w, line);
    ReplayAppend(b.ledger, m, key, opening);
    LatestAtAppend(b.ledger, m, key);
    LatestAppend(b.ledger, m, o, line.product);
    TallyAfterReserve(b.ledger, m, |b.ledger|, key, RESERVE);
    TallyAfterReserve(b.ledger, m, |b.ledger|, key, COMMIT);
  }

  lemma PostCloseKeepsBalance(b: Books, o: OrderId, p: ProductId, m: Movement, key: StockKey, opening: int)
    requires LegalLedger(b.ledger) && IsHeld(b.ledger, o, p)
    requires m.kind != RESERVE
    requires var held := Latest(b.ledger, o, p).value;
             held.key in b.stock && m == CloseMovement(b.stock[held.key], held.key, o, -held.delta, m.kind)
    requires Post(b, m).Ok?
    requires key in b.stock && Balanced(b, key, opening)
    ensures key in Post(b, m).value.stock && Balanced(Post(b, m).value, key, opening)
  {
    LatestBelongs(b.ledger, o, p);
    ReplayAppend(b.ledger, m, key, opening);
    LatestAtAppend(b.ledger, m, key);
    TallyAfterClose(b.ledger, m, |b.ledger|, key, RESERVE);
    TallyAfterClose(b.ledger, m, |b.ledger|, key, COMMIT);
    assert b.ledger[..|b.ledger|] == b.ledger;
    if key.product == p {
      HeldLineQuantity(b.ledger, key, o);
    }
  }

  /** Reserving a fresh line with enough stock: no CHECK fires and the books stay sound. */
  lemma ReserveLineSound(b: Books, opening: map<StockKey, int>, o: OrderId, w: WarehouseId, line: OrderLine)
    requires Sound(b, opening)
    requires Latest(b.ledger, o, line.product) == None && line.quantity > 0
    requires !Short(b.stock, w, line)
    ensures ReserveLine(b, o, w, line).Ok? && Sound(ReserveLine(b, o, w, line).value, opening)
  {
    var key := StockKey(w, line.product);
    var m := ReserveMovement(b.stock[key], o, w, line);
    TallyNonNegative(b.ledger, |b.ledger|, key, RESERVE);
    LegalAppend(b.ledger, m);
    forall k | k in b.stock
      ensures Balanced(Post(b, m).value, k, opening[k])
    {
      PostReserveKeepsBalance(b, o, w, line, k, opening[k]);
    }
  }

  /** The movement that closes a held line breaks no CHECK and is a legal next entry. */
  lemma ClosingIsLegal(b: Books, opening: map<StockKey, int>, o: OrderId, w: WarehouseId, p: ProductId,
                       kind: MovementKind)
    requires kind != RESERVE && Sound(b, opening) && StockKey(w, p) in b.stock
    requires IsHeld(b.ledger, o, p) && Latest(b.ledger, o, p).value.key == StockKey(w, p)
    ensures var m := CloseMovement(b.stock[StockKey(w, p)], StockKey(w, p), o, Abs(Latest(b.ledger, o, p).value.delta),
                                   kind);
            Latest(b.ledger, o, p).value.delta <= 0 && Post(b, m).Ok? && LegalLedger(b.ledger + [m])
  {
    var key := StockKey(w, p);
    HeldLineQuantity(b.ledger, key, o);
    TallyCoversHeld(b.ledger, |b.ledger|, key, o);
    assert b.ledger[..|b.ledger|] == b.ledger;
    LegalAppend(b.ledger, CloseMovement(b.stock[key], key, o, Abs(Latest(b.ledger, o, p).value.delta), kind));
  }

  /** Closing a line at the warehouse that holds it: no CHECK fires and the books stay sound. */
  lemma CloseLineSound(b: Books, opening: map<StockKey, int>, o: OrderId, w: WarehouseId, p: ProductId,
                       kind: MovementKind)
    requires kind != RESERVE && Sound(b, opening)
    requires IsHeld(b.ledger, o, p) ==> Latest(b.ledger, o, p).value.key.warehouse == w
    ensures CloseLine(b, o, w, p, kind).Ok? && Sound(CloseLine(b, o, w, p, kind).value, opening)
  {
    var key := StockKey(w, p);
    LatestBelongs(b.ledger, o, p);
    if IsHeld(b.ledger, o, p) && key in b.stock {
      ClosingIsLegal(b, opening, o, w, p, kind);
      var m := CloseMovement(b.stock[key], key, o, Abs(Latest(b.ledger, o, p).value.delta), kind);
      forall k | k in b.stock
        ensures Balanced(Post(b, m).value, k, opening[k])
      {
        PostCloseKeepsBalance(b, o, p, m, k, opening[k]);
      }
    }
  }
}
