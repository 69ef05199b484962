/**
 The inventory books: the balances of every (warehouse, product) and the append-only ledger of
 movements. A transaction posts movements one order line at a time; each posting writes the new
 balance (guarded by the CHECK constraints) and appends the movement that carries it.
 */
module Books {
  import opened Wrappers

  type OrderId = nat
  type WarehouseId = nat
  type ProductId = nat

  datatype StockKey = StockKey(warehouse: WarehouseId, product: ProductId)
  datatype Balance = Balance(available: int, reserved: int)

  /** RESTOCK and ADJUST exist in the schema but nothing in the service writes them. */
  datatype MovementKind = RESERVE | RELEASE | COMMIT

  datatype Movement = Movement(key: StockKey, order: OrderId, kind: MovementKind, delta: int,
                               availableAfter: int, reservedAfter: int)

  datatype Books = Books(stock: map<StockKey, Balance>, ledger: seq<Movement>)

  datatype OrderLine = OrderLine(product: ProductId, quantity: int)

  datatype TxError =
    | InsufficientStock(products: seq<ProductId>)
    | CheckViolation
    | LockTimeout
    | DuplicateOrder
    | OrderNotFound
    | IllegalTransition

  predicate SameLine(m: Movement, o: OrderId, p: ProductId) {
    m.order == o && m.key.product == p
  }

  /** ORDER BY id DESC LIMIT 1 over one order line. */
  function Latest(ledger: seq<Movement>, o: OrderId, p: ProductId): Option<Movement> {
    if ledger == [] then None
    else if SameLine(ledger[|ledger| - 1], o, p) then Some(ledger[|ledger| - 1])
    else Latest(ledger[..|ledger| - 1], o, p)
  }

  /** The line's reservation is still open: its latest movement is a RESERVE. */
  predicate IsHeld(ledger: seq<Movement>, o: OrderId, p: ProductId) {
    var latest := Latest(ledger, o, p);
    latest.Some? && latest.value.kind == RESERVE
  }

  function Abs(x: int): int {
    if x < 0 then -x else x
  }

  /** One UPDATE inventory plus one INSERT into the ledger; a negative balance breaks a CHECK. */
  function Post(b: Books, m: Movement): Result<Books, TxError> {
    if m.availableAfter < 0 || m.reservedAfter < 0 then Err(CheckViolation)
    else Ok(Books(if m.key in b.stock then b.stock[m.key := Balance(m.availableAfter, m.reservedAfter)] else b.stock,
                  b.ledger + [m]))
  }

  // ---------- reserve ----------

  predicate Short(stock: map<StockKey, Balance>, w: WarehouseId, line: OrderLine) {
    StockKey(w, line.product) !in stock || stock[StockKey(w, line.product)].available < line.quantity
  }

  /** The products that cannot be served, in line order. */
  function Unmet(stock: map<StockKey, Balance>, w: WarehouseId, lines: seq<OrderLine>): seq<ProductId> {
    if lines == [] then []
    else (if Short(stock, w, lines[0]) then [lines[0].product] else []) + Unmet(stock, w, lines[1..])
  }

  function ReserveMovement(row: Balance, o: OrderId, w: WarehouseId, line: OrderLine): Movement {
    Movement(StockKey(w, line.product), o, RESERVE, -line.quantity,
             row.available - line.quantity, row.reserved + line.quantity)
  }

  function ReserveLine(b: Books, o: OrderId, w: WarehouseId, line: OrderLine): Result<Books, TxError> {
    var key := StockKey(w, line.product);
    if key !in b.stock then Err(InsufficientStock([line.product]))
    else Post(b, ReserveMovement(b.stock[key], o, w, line))
  }

  function ReserveLines(b: Books, o: OrderId, w: WarehouseId, lines: seq<OrderLine>): Result<Books, TxError>
    decreases |lines|
  {
    if lines == [] then Ok(b)
    else
      match ReserveLine(b, o, w, lines[0])
      case Err(e) => Err(e)
      case Ok(next) => ReserveLines(next, o, w, lines[1..])
  }

  // ---------- release and commit ----------

  function CloseMovement(row: Balance, key: StockKey, o: OrderId, q: int, kind: MovementKind): Movement {
    if kind == RELEASE
    then Movement(key, o, RELEASE, q, row.available + q, row.reserved - q)
    else Movement(key, o, COMMIT, 0, row.available, row.reserved - q)
  }

  /** Ends one line's reservation; the amount comes from the ledger. A line not held is left alone. */
  function CloseLine(b: Books, o: OrderId, w: WarehouseId, p: ProductId, kind: MovementKind): Result<Books, TxError>
    requires kind != RESERVE
  {
    var key := StockKey(w, p);
    if !IsHeld(b.ledger, o, p) || key !in b.stock then Ok(b)
    else Post(b, CloseMovement(b.stock[key], key, o, Abs(Latest(b.ledger, o, p).value.delta), kind))
  }

  function CloseLines(b: Books, o: OrderId, w: WarehouseId, ps: seq<ProductId>,
                      kind: MovementKind): Result<Books, TxError>
    requires kind != RESERVE
    decreases |ps|
  {
    if ps == [] then Ok(b)
    else
      match CloseLine(b, o, w, ps[0], kind)
      case Err(e) => Err(e)
      case Ok(next) => CloseLines(next, o, w, ps[1..], kind)
  }

  // ---------- what the books must say ----------

  /** The next movement opens a line never seen, or closes a held one for the whole held quantity. */
  predicate LegalNext(ledger: seq<Movement>, m: Movement) {
    var latest := Latest(ledger, m.order, m.key.product);
    match m.kind
    case RESERVE => latest == None && m.delta < 0
    case RELEASE => latest.Some? && latest.value.kind == RESERVE && latest.value.key == m.key
      && m.delta == -latest.value.delta
    case COMMIT => latest.Some? && latest.value.kind == RESERVE && latest.value.key == m.key && m.delta == 0
  }

  predicate LegalLedger(ledger: seq<Movement>) {
    ledger == [] ||
    (LegalLedger(ledger[..|ledger| - 1]) && LegalNext(ledger[..|ledger| - 1], ledger[|ledger| - 1]))
  }

  /** Rebuilds one balance from opening stock and deltas alone, never from the stored snapshots. */
  function Replay(ledger: seq<Movement>, key: StockKey, opening: int): Balance {
    if ledger == [] then Balance(opening, 0)
    else
      var past := ledger[..|ledger| - 1];
      var m := ledger[|ledger| - 1];
      var before := Replay(past, key, opening);
      if m.key != key then before
      else if m.kind == COMMIT then
        var held := Latest(past, m.order, key.product);
        Balance(before.available, before.reserved + if held.Some? then held.value.delta else 0)
      else Balance(before.available + m.delta, before.reserved - m.delta)
  }

  predicate Counts(ledger: seq<Movement>, m: Movement, key: StockKey, kind: MovementKind) {
    && m.kind == RESERVE
    && m.key == key
    && var latest := Latest(ledger, m.order, key.product);
       latest.Some? && latest.value.kind == kind
  }

  /**
   Among the first n movements, the quantity reserved at `key` by lines whose latest movement in
   the whole ledger is of the given kind: outstanding for RESERVE, sold for COMMIT.
   */
  function Tally(ledger: seq<Movement>, n: nat, key: StockKey, kind: MovementKind): int
    requires n <= |ledger|
  {
    if n == 0 then 0
    else Tally(ledger, n - 1, key, kind) +
         if Counts(ledger, ledger[n - 1], key, kind) then -ledger[n - 1].delta else 0
  }

  function Outstanding(ledger: seq<Movement>, key: StockKey): int {
    Tally(ledger, |ledger|, key, RESERVE)
  }

  function Sold(ledger: seq<Movement>, key: StockKey): int {
    Tally(ledger, |ledger|, key, COMMIT)
  }

  function LatestAt(ledger: seq<Movement>, key: StockKey): Option<Movement> {
    if ledger == [] then None
    else if ledger[|ledger| - 1].key == key then Some(ledger[|ledger| - 1])
    else LatestAt(ledger[..|ledger| - 1], key)
  }

  /** verify-ledger.sql reports no discrepancy for this row. */
  predicate SnapshotAgrees(b: Books, key: StockKey)
    requires key in b.stock
  {
    var latest := LatestAt(b.ledger, key);
    latest.Some? ==> b.stock[key] == Balance(latest.value.availableAfter, latest.value.reservedAfter)
  }

  ghost predicate Balanced(b: Books, key: StockKey, opening: int)
    requires key in b.stock
  {
    && b.stock[key] == Replay(b.ledger, key, opening)
    && b.stock[key].reserved == Outstanding(b.ledger, key)
    && b.stock[key].available + Outstanding(b.ledger, key) + Sold(b.ledger, key) == opening
    && 0 <= b.stock[key].available
    && SnapshotAgrees(b, key)
  }

  ghost predicate Sound(b: Books, opening: map<StockKey, int>) {
    && b.stock.Keys == opening.Keys
    && LegalLedger(b.ledger)
    && (forall i | 0 <= i < |b.ledger| :: b.ledger[i].key in b.stock)
    && forall key | key in b.stock :: Balanced(b, key, opening[key])
  }
}
