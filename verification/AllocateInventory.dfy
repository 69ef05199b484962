/** The failover loop: one transaction per candidate warehouse, nearest first. */
module AllocateInventory {
  import opened Wrappers
  import opened Books
  import opened Tables
  import opened Database
  import opened Protocol
  import opened TransactionEffects
  import Inventory = InventoryService

  datatype Allocation =
    | Allocated(warehouse: WarehouseId)
    | NoCandidates(products: seq<ProductId>)
    | LostRace(unmet: set<ProductId>)
    | Aborted(error: TxError)

  /** The order and its reservation commit together, or the tables are as they were. */
  method Attempt(db: Database, cmd: ReserveCommand, lockTimeout: bool, now: int) returns (error: Option<TxError>)
    requires Distinct(cmd.lines)
    modifies db
    ensures match ReserveTx(old(db.Contents()), cmd, lockTimeout, now)
            case Ok(t) => error == None && db.Contents() == t
            case Err(e) => error == Some(e) && db.Contents() == old(db.Contents())
  {
    if cmd.order in db.orders {
      return Some(DuplicateOrder);
    }
    var before := db.Contents();
    db.orders := db.orders[cmd.order := NewOrderRow(cmd, now)];
    db.items := db.items[cmd.order := cmd.lines];
    if Unmet(db.stock, cmd.warehouse, cmd.lines) == [] {
      Inventory.RowsAreCurrent(db.stock, cmd.warehouse, cmd.lines);
      Inventory.ReadOnceIsSequential(db.CurrentBooks(), Inventory.RowsFor(db.stock, cmd.warehouse, cmd.lines),
                                     cmd.order, cmd.warehouse, cmd.lines);
    }
    error := Inventory.Reserve(db, cmd.order, cmd.warehouse, cmd.lines, lockTimeout, now);
    if error.Some? {
      db.Restore(before);
    }
  }

  /** The outcome of the i-th attempt, on the tables as the other actors had left them by then. */
  function Try(cart: Cart, o: OrderId, candidates: seq<WarehouseId>, worlds: seq<Tables>, timeouts: seq<bool>, now: int,
               i: nat): Result<Tables, TxError>
    requires i < |candidates| == |worlds| == |timeouts|
  {
    ReserveTx(worlds[i], CommandFor(cart, o, candidates[i]), timeouts[i], now)
  }

  predicate Refused(r: Result<Tables, TxError>) {
    r.Err? && r.error.InsufficientStock?
  }

  /** The attempt was refused, and this product is one it could not serve. */
  predicate Names(r: Result<Tables, TxError>, p: ProductId) {
    Refused(r) && p in r.error.products
  }

  /** On consistent tables the attempt succeeds exactly with a new id, locks in time and enough available. */
  lemma TrySucceedsIff(cart: Cart, o: OrderId, candidates: seq<WarehouseId>, worlds: seq<Tables>, timeouts: seq<bool>,
                       now: int, i: nat, opening: map<StockKey, int>)
    requires i < |candidates| == |worlds| == |timeouts|
    requires Consistent(worlds[i], opening) && ValidLines(cart.lines)
    ensures Try(cart, o, candidates, worlds, timeouts, now, i).Ok? <==>
            && o !in worlds[i].orders && !timeouts[i]
            && forall k | 0 <= k < |cart.lines| ::
                 var key := StockKey(candidates[i], cart.lines[k].product);
                 key in worlds[i].books.stock && worlds[i].books.stock[key].available >= cart.lines[k].quantity
    ensures Refused(Try(cart, o, candidates, worlds, timeouts, now, i)) <==>
            o !in worlds[i].orders && Try(cart, o, candidates, worlds, timeouts, now, i).Err?
  {
    ReservationStandsIff(worlds[i], opening, CommandFor(cart, o, candidates[i]), timeouts[i], now);
    if Try(cart, o, candidates, worlds, timeouts, now, i).Err? {
      RefusalNames(worlds[i], opening, CommandFor(cart, o, candidates[i]), timeouts[i], now, 0);
    }
  }

  /** A refused attempt names every product on a timeout, else those with a row missing or short of stock. */
  lemma NamedIff(cart: Cart, o: OrderId, candidates: seq<WarehouseId>, worlds: seq<Tables>, timeouts: seq<bool>,
                 now: int, i: nat, opening: map<StockKey, int>, p: ProductId)
    requires i < |candidates| == |worlds| == |timeouts|
    requires Consistent(worlds[i], opening) && ValidLines(cart.lines)
    ensures Names(Try(cart, o, candidates, worlds, timeouts, now, i), p) <==>
            o !in worlds[i].orders && exists k | 0 <= k < |cart.lines| ::
              && cart.lines[k].product == p
              && (timeouts[i] || StockKey(candidates[i], p) !in worlds[i].books.stock
                  || worlds[i].books.stock[StockKey(candidates[i], p)].available < cart.lines[k].quantity)
  {
    var r := Try(cart, o, candidates, worlds, timeouts, now, i);
    TrySucceedsIff(cart, o, candidates, worlds, timeouts, now, i, opening);
    if r.Ok? {
      forall k | 0 <= k < |cart.lines| && cart.lines[k].product == p
        ensures StockKey(candidates[i], p) in worlds[i].books.stock
        ensures worlds[i].books.stock[StockKey(candidates[i], p)].available >= cart.lines[k].quantity
      {
        assert cart.lines[k].product == p;
      }
    } else {
      RefusalNames(worlds[i], opening, CommandFor(cart, o, candidates[i]), timeouts[i], now, p);
    }
  }

  /**
   worlds[i] is what the other actors have made of the tables when attempt i starts. A reservation
   stands at the first candidate that could hold it and nowhere else; a lost race leaves no trace
   and names exactly the products some attempt could not serve.
   */
  method Execute(db: Database, cart: Cart, o: OrderId, candidates: seq<WarehouseId>, worlds: seq<Tables>,
                 timeouts: seq<bool>, now: int)
    returns (r: Allocation)
    requires |candidates| == |worlds| == |timeouts| && Distinct(cart.lines)
    modifies db
    ensures r.NoCandidates? <==> candidates == []
    ensures candidates == [] ==> r.products == Products(cart.lines) && db.Contents() == old(db.Contents())
    ensures r.Allocated? ==>
              exists i :: 0 <= i < |candidates| && r.warehouse == candidates[i] &&
                Try(cart, o, candidates, worlds, timeouts, now, i) == Ok(db.Contents()) &&
                forall j | 0 <= j < i :: Refused(Try(cart, o, candidates, worlds, timeouts, now, j))
    ensures r.LostRace? ==>
              && (forall i | 0 <= i < |candidates| :: Refused(Try(cart, o, candidates, worlds, timeouts, now, i)))
              && (forall p :: p in r.unmet <==>
                   exists i :: 0 <= i < |candidates| && Names(Try(cart, o, candidates, worlds, timeouts, now, i), p))
              && db.Contents() == worlds[|worlds| - 1]
    ensures r.Aborted? ==>
              exists i :: 0 <= i < |candidates| &&
                Try(cart, o, candidates, worlds, timeouts, now, i) == Err(r.error) && db.Contents() == worlds[i]
  {
    if |candidates| == 0 {
      return NoCandidates(Products(cart.lines));
    }
    var unmet: set<ProductId> := {};
    for n := 0 to |candidates|
      invariant forall i | 0 <= i < n :: Refused(Try(cart, o, candidates, worlds, timeouts, now, i))
      invariant forall p :: p in unmet <==>
                  exists i :: 0 <= i < n && Names(Try(cart, o, candidates, worlds, timeouts, now, i), p)
      invariant n > 0 ==> db.Contents() == worlds[n - 1]
    {
      db.Restore(worlds[n]);
      var error := Attempt(db, CommandFor(cart, o, candidates[n]), timeouts[n], now);
      if error.None? {
        return Allocated(candidates[n]);
      }
      if !error.value.InsufficientStock? {
        return Aborted(error.value);
      }
      assert forall p :: p in error.value.products <==> Names(Try(cart, o, candidates, worlds, timeouts, now, n), p);
      unmet := unmet + set p | p in error.value.products;
    }
    r := LostRace(unmet);
  }
}
