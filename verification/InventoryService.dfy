/** reserve, release and commit: rows are read once under their locks, then written line by line. */
module InventoryService {
  import opened Wrappers
  import opened Books
  import opened Orders
  import opened Tables
  import opened Database
  import opened TransactionEffects

  ghost predicate NoRepeats(ps: seq<ProductId>) {
    forall i, j | 0 <= i < j < |ps| :: ps[i] != ps[j]
  }

  /** SELECT ... FOR UPDATE: the rows that exist, as they stand once locked. */
  method LockInventoryRows(db: Database, w: WarehouseId, ps: seq<ProductId>) returns (rows: map<ProductId, Balance>)
    ensures rows == map p | p in ps && StockKey(w, p) in db.stock :: db.stock[StockKey(w, p)]
  {
    rows := map p | p in ps && StockKey(w, p) in db.stock :: db.stock[StockKey(w, p)];
  }

  /** False where a CHECK constraint rejects the new balance. */
  method UpdateInventoryBalances(db: Database, key: StockKey, available: int, reserved: int) returns (ok: bool)
    modifies db`stock
    ensures ok <==> available >= 0 && reserved >= 0
    ensures db.stock ==
            if ok && key in old(db.stock) then old(db.stock)[key := Balance(available, reserved)] else old(db.stock)
  {
    ok := available >= 0 && reserved >= 0;
    if ok && key in db.stock {
      db.stock := db.stock[key := Balance(available, reserved)];
    }
  }

  method InsertMovement(db: Database, m: Movement)
    modifies db`ledger
    ensures db.ledger == old(db.ledger) + [m]
  {
    db.ledger := db.ledger + [m];
  }

  predicate ShortRow(rows: map<ProductId, Balance>, line: OrderLine) {
    line.product !in rows || rows[line.product].available < line.quantity
  }

  lemma ShortRowIsShort(rows: map<ProductId, Balance>, stock: map<StockKey, Balance>, w: WarehouseId,
                        lines: seq<OrderLine>, i: nat)
    requires rows == RowsFor(stock, w, lines) && i < |lines|
    ensures ShortRow(rows, lines[i]) <==> Short(stock, w, lines[i])
  {
    assert Products(lines)[i] == lines[i].product;
  }

  lemma UnmetFrom(rows: map<ProductId, Balance>, stock: map<StockKey, Balance>, w: WarehouseId, lines: seq<OrderLine>,
                  i: nat)
    requires rows == RowsFor(stock, w, lines) && i < |lines|
    ensures Unmet(stock, w, lines[i..]) ==
            (if ShortRow(rows, lines[i]) then [lines[i].product] else []) + Unmet(stock, w, lines[i + 1..])
  {
    ShortRowIsShort(rows, stock, w, lines, i);
    assert lines[i..][0] == lines[i] && lines[i..][1..] == lines[i + 1..];
  }

  /** Exactly the products of lines whose row is missing or has too little available. */
  ghost predicate NamesLacking(unmet: seq<ProductId>, rows: map<ProductId, Balance>, lines: seq<OrderLine>) {
    forall p :: p in unmet <==> exists i | 0 <= i < |lines| ::
      lines[i].product == p && (p !in rows || rows[p].available < lines[i].quantity)
  }

  lemma UnmetNamesLacking(rows: map<ProductId, Balance>, stock: map<StockKey, Balance>, w: WarehouseId,
                          lines: seq<OrderLine>)
    requires rows == RowsFor(stock, w, lines)
    ensures NamesLacking(Unmet(stock, w, lines), rows, lines)
  {
    forall p
      ensures p in Unmet(stock, w, lines) <==> exists i | 0 <= i < |lines| ::
                lines[i].product == p && (p !in rows || rows[p].available < lines[i].quantity)
    {
      UnmetNames(stock, w, lines, p);
      assert forall i | 0 <= i < |lines| :: Products(lines)[i] == lines[i].product;
    }
  }

  /** The products the locked rows cannot serve, in line order. */
  method FindUnmet(rows: map<ProductId, Balance>, ghost stock: map<StockKey, Balance>, ghost w: WarehouseId,
                   lines: seq<OrderLine>)
    returns (unmet: seq<ProductId>)
    requires rows == RowsFor(stock, w, lines)
    ensures unmet == Unmet(stock, w, lines)
  {
    unmet := [];
    for i := 0 to |lines|
      invariant unmet + Unmet(stock, w, lines[i..]) == Unmet(stock, w, lines)
    {
      UnmetFrom(rows, stock, w, lines, i);
      if ShortRow(rows, lines[i]) {
        unmet := unmet + [lines[i].product];
      }
    }
  }

  /** The rows of these lines' products, as one locking query returns them. */
  function RowsFor(stock: map<StockKey, Balance>, w: WarehouseId, lines: seq<OrderLine>): map<ProductId, Balance> {
    map p | p in Products(lines) && StockKey(w, p) in stock :: stock[StockKey(w, p)]
  }

  /** Every line computed from the rows as they were read, whatever earlier lines have written since. */
  function ReadOnce(b: Books, rows: map<ProductId, Balance>, o: OrderId, w: WarehouseId,
                    lines: seq<OrderLine>): Result<Books, TxError>
    decreases |lines|
  {
    if lines == [] then Ok(b)
    else if lines[0].product !in rows then Err(InsufficientStock([lines[0].product]))
    else
      match Post(b, ReserveMovement(rows[lines[0].product], o, w, lines[0]))
      case Err(e) => Err(e)
      case Ok(next) => ReadOnce(next, rows, o, w, lines[1..])
  }

  /** On an error the caller rolls back, so only what a success leaves is stated. */
  method Reserve(db: Database, o: OrderId, w: WarehouseId, lines: seq<OrderLine>, lockTimeout: bool, now: int)
    returns (error: Option<TxError>)
    requires o in db.orders
    modifies db`stock, db`ledger, db`orders
    ensures lockTimeout ==> error == Some(InsufficientStock(Products(lines)))
    ensures !lockTimeout && Unmet(old(db.stock), w, lines) != [] ==>
              error == Some(InsufficientStock(Unmet(old(db.stock), w, lines)))
    ensures !lockTimeout && Unmet(old(db.stock), w, lines) == [] ==>
              match ReadOnce(old(db.CurrentBooks()), RowsFor(old(db.stock), w, lines), o, w, lines)
              case Err(e) => error == Some(e)
              case Ok(books) =>
                && error == None && db.CurrentBooks() == books
                && db.orders == old(db.orders)[o := old(db.orders[o]).(warehouse := Some(w),
                                                                       expiresAt := Some(now + RESERVATION_TTL_MS))]
  {
    if lockTimeout {
      return Some(InsufficientStock(Products(lines)));
    }
    var rows := LockInventoryRows(db, w, Products(lines));
    var unmet := FindUnmet(rows, db.stock, w, lines);
    if unmet != [] {
      return Some(InsufficientStock(unmet));
    }
    UnmetNone(db.stock, w, lines);
    ghost var before := db.CurrentBooks();
    assert forall j | 0 <= j < |lines| :: Products(lines)[j] == lines[j].product;
    for i := 0 to |lines|
      invariant ReadOnce(before, rows, o, w, lines) == ReadOnce(db.CurrentBooks(), rows, o, w, lines[i..])
      invariant forall j | 0 <= j < |lines| :: lines[j].product in rows && StockKey(w, lines[j].product) in db.stock
      invariant db.orders == old(db.orders)
    {
      var line := lines[i];
      assert lines[i..][0] == line && lines[i..][1..] == lines[i + 1..];
      var row := rows[line.product];
      var availableAfter, reservedAfter := row.available - line.quantity, row.reserved + line.quantity;
      var ok := UpdateInventoryBalances(db, StockKey(w, line.product), availableAfter, reservedAfter);
      if !ok {
        return Some(CheckViolation);
      }
      InsertMovement(db, Movement(StockKey(w, line.product), o, RESERVE, -line.quantity, availableAfter,
                                  reservedAfter));
    }
    db.orders := db.orders[o := db.orders[o].(warehouse := Some(w), expiresAt := Some(now + RESERVATION_TTL_MS))];
    error := None;
  }

  /** The rows still to be used are the balances as they stand. */
  predicate Current(stock: map<StockKey, Balance>, rows: map<ProductId, Balance>, w: WarehouseId, lines: seq<OrderLine>)
  {
    forall i | 0 <= i < |lines| ::
      var p := lines[i].product; p in rows && StockKey(w, p) in stock && stock[StockKey(w, p)] == rows[p]
  }

  lemma {:induction false} ReadOnceIsSequential(b: Books, rows: map<ProductId, Balance>, o: OrderId, w: WarehouseId,
                                                lines: seq<OrderLine>)
    requires Distinct(lines) && Current(b.stock, rows, w, lines)
    ensures ReadOnce(b, rows, o, w, lines) == ReserveLines(b, o, w, lines)
    decreases |lines|
  {
    if lines != [] {
      assert Current(b.stock, rows, w, [lines[0]]) by {
        assert [lines[0]][0] == lines[0];
      }
      var posted := Post(b, ReserveMovement(rows[lines[0].product], o, w, lines[0]));
      if posted.Ok? {
        var rest := lines[1..];
        assert forall i | 0 <= i < |rest| :: rest[i] == lines[i + 1] && rest[i].product != lines[0].product;
        ReadOnceIsSequential(posted.value, rows, o, w, rest);
      }
    }
  }

  /** Reservations only ever add to the ledger. */
  lemma {:induction false} ReserveAppends(b: Books, rows: map<ProductId, Balance>, o: OrderId, w: WarehouseId,
                                          lines: seq<OrderLine>)
    ensures ReserveLines(b, o, w, lines).Ok? ==> b.ledger <= ReserveLines(b, o, w, lines).value.ledger
    ensures ReadOnce(b, rows, o, w, lines).Ok? ==> b.ledger <= ReadOnce(b, rows, o, w, lines).value.ledger
    decreases |lines|
  {
    if lines != [] {
      var one := ReserveLine(b, o, w, lines[0]);
      if one.Ok? {
        ReserveAppends(one.value, rows, o, w, lines[1..]);
      }
      if lines[0].product in rows {
        var other := Post(b, ReserveMovement(rows[lines[0].product], o, w, lines[0]));
        if other.Ok? {
          ReserveAppends(other.value, rows, o, w, lines[1..]);
        }
      }
    }
  }

  /** If both ways come to the same books, no line found its row changed by an earlier one. */
  lemma {:induction false} SameBooksMeansDistinct(b: Books, c: Books, rows: map<ProductId, Balance>, o: OrderId,
                                                  w: WarehouseId, lines: seq<OrderLine>)
    requires |b.ledger| == |c.ledger| && forall i | 0 <= i < |lines| :: lines[i].quantity > 0
    requires ReserveLines(b, o, w, lines).Ok? && ReadOnce(c, rows, o, w, lines) == ReserveLines(b, o, w, lines)
    ensures Distinct(lines) && Current(b.stock, rows, w, lines)
    decreases |lines|
  {
    if lines != [] {
      var p, key := lines[0].product, StockKey(w, lines[0].product);
      var mine, theirs := ReserveMovement(b.stock[key], o, w, lines[0]), ReserveMovement(rows[p], o, w, lines[0]);
      var b', c', rest := Post(b, mine).value, Post(c, theirs).value, lines[1..];
      ReserveAppends(b', rows, o, w, rest);
      ReserveAppends(c', rows, o, w, rest);
      assert b'.ledger[|b.ledger|] == mine && c'.ledger[|c.ledger|] == theirs;
      assert mine == theirs;
      SameBooksMeansDistinct(b', c', rows, o, w, rest);
      forall i | 0 <= i < |rest|
        ensures rest[i].product != p && lines[i + 1] == rest[i]
      {
        assert b'.stock[StockKey(w, rest[i].product)] == rows[rest[i].product];
      }
    }
  }

  lemma {:induction false} EveryLineIsServed(stock: map<StockKey, Balance>, w: WarehouseId, lines: seq<OrderLine>)
    requires Unmet(stock, w, lines) == []
    ensures forall i | 0 <= i < |lines| :: !Short(stock, w, lines[i])
  {
    if lines != [] {
      EveryLineIsServed(stock, w, lines[1..]);
      assert lines == [lines[0]] + lines[1..];
    }
  }

  lemma {:induction false} ReadOnceSucceeds(b: Books, rows: map<ProductId, Balance>, o: OrderId, w: WarehouseId,
                                            lines: seq<OrderLine>)
    requires forall i | 0 <= i < |lines| ::
               var line := lines[i];
               && line.product in rows
               && rows[line.product].available >= line.quantity > 0 && rows[line.product].reserved >= 0
    ensures ReadOnce(b, rows, o, w, lines).Ok?
    decreases |lines|
  {
    if lines != [] {
      ReadOnceSucceeds(Post(b, ReserveMovement(rows[lines[0].product], o, w, lines[0])).value, rows, o, w, lines[1..]);
    }
  }

  /**
   Reading the rows once amounts to reserving line after line exactly for the carts whose products
   are distinct. With a product twice the second write forgets the first.
   */
  lemma ReadOnceIffDistinct(b: Books, o: OrderId, w: WarehouseId, lines: seq<OrderLine>)
    requires Unmet(b.stock, w, lines) == [] && forall i | 0 <= i < |lines| :: lines[i].quantity > 0
    requires forall key | key in b.stock :: b.stock[key].reserved >= 0
    ensures ReadOnce(b, RowsFor(b.stock, w, lines), o, w, lines) == ReserveLines(b, o, w, lines) <==> Distinct(lines)
  {
    var rows := RowsFor(b.stock, w, lines);
    RowsAreCurrent(b.stock, w, lines);
    if Distinct(lines) {
      ReadOnceIsSequential(b, rows, o, w, lines);
    }
    EveryLineIsServed(b.stock, w, lines);
    ReadOnceSucceeds(b, rows, o, w, lines);
    if ReadOnce(b, rows, o, w, lines) == ReserveLines(b, o, w, lines) {
      SameBooksMeansDistinct(b, b, rows, o, w, lines);
    }
  }

  lemma RowsAreCurrent(stock: map<StockKey, Balance>, w: WarehouseId, lines: seq<OrderLine>)
    requires Unmet(stock, w, lines) == []
    ensures Current(stock, RowsFor(stock, w, lines), w, lines)
  {
    UnmetNone(stock, w, lines);
    assert forall j | 0 <= j < |lines| :: Products(lines)[j] == lines[j].product;
  }

  lemma UnmetNone(stock: map<StockKey, Balance>, w: WarehouseId, lines: seq<OrderLine>)
    requires Unmet(stock, w, lines) == []
    ensures forall i | 0 <= i < |lines| :: StockKey(w, lines[i].product) in stock
  {
    if lines != [] {
      UnmetNone(stock, w, lines[1..]);
      assert lines == [lines[0]] + lines[1..];
    }
  }

  /** Unlike reserve, neither release nor commit catches a lock timeout: the transaction throws. */
  function ClosedInTime(b: Books, o: OrderId, w: WarehouseId, ps: seq<ProductId>, kind: MovementKind,
                        lockTimeout: bool): Result<Books, TxError>
    requires kind != RESERVE
  {
    if lockTimeout then Err(LockTimeout) else CloseLines(b, o, w, ps, kind)
  }

  /** Returns each held line's stock; the amount comes from the ledger. */
  method Release(db: Database, o: OrderId, w: WarehouseId, ps: seq<ProductId>, lockTimeout: bool)
    returns (error: Option<TxError>)
    requires NoRepeats(ps)
    modifies db`stock, db`ledger
    ensures match ClosedInTime(old(db.CurrentBooks()), o, w, ps, RELEASE, lockTimeout)
            case Err(e) => error == Some(e)
            case Ok(books) => error == None && db.CurrentBooks() == books
  {
    if lockTimeout {
      return Some(LockTimeout);
    }
    var rows := LockInventoryRows(db, w, ps);
    ghost var before := db.CurrentBooks();
    for i := 0 to |ps|
      invariant CloseLines(before, o, w, ps, RELEASE) == CloseLines(db.CurrentBooks(), o, w, ps[i..], RELEASE)
      invariant RowsStand(db, w, ps, rows, i)
    {
      var p := ps[i];
      assert ps[i..][0] == p && ps[i..][1..] == ps[i + 1..];
      var latest := Latest(db.ledger, o, p);
      if latest.None? || latest.value.kind == RELEASE || latest.value.kind == COMMIT {
        continue;
      }
      if p !in rows {
        continue;
      }
      var reservedQuantity := Abs(latest.value.delta);
      var availableAfter, reservedAfter := rows[p].available + reservedQuantity, rows[p].reserved - reservedQuantity;
      var ok := UpdateInventoryBalances(db, StockKey(w, p), availableAfter, reservedAfter);
      if !ok {
        return Some(CheckViolation);
      }
      InsertMovement(db, Movement(StockKey(w, p), o, RELEASE, reservedQuantity, availableAfter, reservedAfter));
    }
    error := None;
  }

  /** Ends each held line's reservation and leaves the available balance alone. */
  method Commit(db: Database, o: OrderId, w: WarehouseId, ps: seq<ProductId>, lockTimeout: bool)
    returns (error: Option<TxError>)
    requires NoRepeats(ps)
    modifies db`stock, db`ledger
    ensures match ClosedInTime(old(db.CurrentBooks()), o, w, ps, COMMIT, lockTimeout)
            case Err(e) => error == Some(e)
            case Ok(books) => error == None && db.CurrentBooks() == books
  {
    if lockTimeout {
      return Some(LockTimeout);
    }
    var rows := LockInventoryRows(db, w, ps);
    ghost var before := db.CurrentBooks();
    for i := 0 to |ps|
      invariant CloseLines(before, o, w, ps, COMMIT) == CloseLines(db.CurrentBooks(), o, w, ps[i..], COMMIT)
      invariant RowsStand(db, w, ps, rows, i)
    {
      var p := ps[i];
      assert ps[i..][0] == p && ps[i..][1..] == ps[i + 1..];
      var latest := Latest(db.ledger, o, p);
      if latest.None? || latest.value.kind == RELEASE || latest.value.kind == COMMIT {
        continue;
      }
      if p !in rows {
        continue;
      }
      var reservedAfter := rows[p].reserved - Abs(latest.value.delta);
      var ok := UpdateInventoryBalances(db, StockKey(w, p), rows[p].available, reservedAfter);
      if !ok {
        return Some(CheckViolation);
      }
      InsertMovement(db, Movement(StockKey(w, p), o, COMMIT, 0, rows[p].available, reservedAfter));
    }
    error := None;
  }

  /** The rows still to be written are as they were read. */
  ghost predicate RowsStand(db: Database, w: WarehouseId, ps: seq<ProductId>, rows: map<ProductId, Balance>, from: nat)
    reads db
  {
    forall j | from <= j < |ps| ::
      && (ps[j] in rows <==> StockKey(w, ps[j]) in db.stock)
      && (ps[j] in rows ==> db.stock[StockKey(w, ps[j])] == rows[ps[j]])
  }
}
