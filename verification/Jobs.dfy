/** The scheduled jobs as batches: the reservation reaper and payment reconciliation. */
module Jobs {
  import opened Wrappers
  import opened Books
  import opened Orders
  import opened Tables
  import opened TablesLaws
  import opened Database
  import opened Protocol
  import opened Consistency
  import opened Sets
  import opened TransactionEffects
  import Settlement = OrderSettlement

  const BATCH_SIZE := 50

  /** One selected order, with whether its payment row was there to see. */
  datatype Row = Row(order: OrderId, sawPayment: bool)

  /** What resolving a row meets with: the provider's answer, and whether the stock rows stay locked too long. */
  datatype Met = Met(answer: PaymentStatus, lockTimeout: bool)

  /** The settlement's tables, or, where it throws, those before it. */
  function Tried(t: Tables, o: OrderId, payment: Option<PaymentStatus>, action: Action, lockTimeout: bool,
                 now: int): Tables
  {
    match Settlement.SettleInTime(t, o, payment, action, lockTimeout, now)
    case Ok(done) => done.0
    case Err(_) => t
  }

  /** The settlement a row and the provider's answer lead to, applied to the tables. */
  function Resolved(t: Tables, kind: JobKind, row: Row, met: Met, now: int): Tables {
    var decision := Decide(Task(kind, row.order, row.sawPayment, Some(met.answer)));
    if decision.LeaveAlone? then t
    else Tried(t, row.order, decision.payment, decision.action, met.lockTimeout, now)
  }

  function ResolvedAll(t: Tables, kind: JobKind, rows: seq<Row>, met: seq<Met>, now: int): Tables
    requires |rows| == |met|
    decreases |rows|
  {
    if rows == [] then t
    else ResolvedAll(Resolved(t, kind, rows[0], met[0], now), kind, rows[1..], met[1..], now)
  }

  /** resolveReservation; what it throws, the batch catches. */
  method ResolveReservation(db: Database, row: Row, met: Met, now: int) returns (thrown: bool)
    requires row.order in db.items ==> Distinct(db.items[row.order])
    modifies db
    ensures db.Contents() == Resolved(old(db.Contents()), Reap, row, met, now)
    ensures thrown ==> db.Contents() == old(db.Contents())
  {
    ghost var before := db.Contents();
    ReapDecisions(before, row, met, now);
    var answer := met.answer;
    var r: Result<Outcome, TxError> := Ok(AlreadySettled);
    if !row.sawPayment {
      r := Settlement.CancelUnpaid(db, row.order, "RESERVATION_EXPIRED_NO_PAYMENT", None, met.lockTimeout, now);
    } else if answer == Captured {
      r := Settlement.ConfirmCaptured(db, row.order, Some(answer), met.lockTimeout, now);
    } else if answer == Declined {
      r := Settlement.FailDeclined(db, row.order, Some(answer), met.lockTimeout, now);
    } else if answer == Failed {
      r := Settlement.CancelUnpaid(db, row.order, "RESERVATION_EXPIRED_NOT_CHARGED", Some(answer), met.lockTimeout,
                                   now);
    }
    thrown := r.Err?;
  }

  lemma ReapDecisions(t: Tables, row: Row, met: Met, now: int)
    ensures Resolved(t, Reap, row, met, now) ==
            var (o, answer, late) := (row.order, met.answer, met.lockTimeout);
            if !row.sawPayment then Tried(t, o, None, Cancel("RESERVATION_EXPIRED_NO_PAYMENT"), late, now)
            else if answer == Captured then Tried(t, o, Some(answer), Confirm, late, now)
            else if answer == Declined then Tried(t, o, Some(answer), Fail, late, now)
            else if answer == Failed
            then Tried(t, o, Some(answer), Cancel("RESERVATION_EXPIRED_NOT_CHARGED"), late, now)
            else t
  {
  }

  /** resolvePayment: anything but a final outcome is left for the reaper. */
  method ResolvePaymentRow(db: Database, row: Row, met: Met, now: int) returns (thrown: bool)
    requires row.sawPayment && (row.order in db.items ==> Distinct(db.items[row.order]))
    modifies db
    ensures db.Contents() == Resolved(old(db.Contents()), Reconcile, row, met, now)
    ensures thrown ==> db.Contents() == old(db.Contents())
  {
    var answer := met.answer;
    var r: Result<Outcome, TxError> := Ok(AlreadySettled);
    if answer == Captured {
      r := Settlement.ConfirmCaptured(db, row.order, Some(answer), met.lockTimeout, now);
    } else if answer == Declined {
      r := Settlement.FailDeclined(db, row.order, Some(answer), met.lockTimeout, now);
    }
    thrown := r.Err?;
  }

  /** The protocol's view of it: a settlement that comes too late for its locks is a task that is dropped. */
  lemma ResolutionIsAStep(s: State, opening: map<StockKey, int>, k: nat, met: Met)
    requires Consistent(s.tables, opening) && k in s.tasks && s.tasks[k].order in s.tables.orders
    requires s.tasks[k].answer == if s.tasks[k].sawPayment then Some(met.answer) else None
    requires s.tasks[k].kind == Reconcile ==> s.tasks[k].sawPayment
    ensures var task := s.tasks[k];
            var step := if met.lockTimeout || Decide(task).LeaveAlone? then DropTask(k) else ResolveTask(k);
            Enabled(s, step) &&
            Apply(s, step).tables == Resolved(s.tables, task.kind, Row(task.order, task.sawPayment), met, s.now)
  {
    assert OrderAgrees(s.tables, s.tasks[k].order);
  }

  lemma TriedMeans(t: Tables, opening: map<StockKey, int>, o: OrderId, answer: Option<PaymentStatus>, action: Action,
                   now: int)
    requires Consistent(t, opening) && o in t.orders && t.orders[o].status == PendingPayment
    ensures t.orders[o].warehouse.Some? && o in t.items
    ensures Tried(t, o, answer, action, true, now) == t
    ensures DoneAs(t, Tried(t, o, answer, action, false, now), o, answer, action, now)
  {
    SettlementWrites(t, opening, o, answer, action, now);
  }

  /**
   What reconciliation makes of a pending order, told by its rows: a captured charge confirms, a declined
   one fails and releases; on any other answer, or when the locks come too late, nothing changes.
   */
  lemma ReconciliationMeans(t: Tables, opening: map<StockKey, int>, row: Row, met: Met, now: int)
    requires Consistent(t, opening) && row.sawPayment
    requires row.order in t.orders && t.orders[row.order].status == PendingPayment
    ensures t.orders[row.order].warehouse.Some? && row.order in t.items
    ensures var after := Resolved(t, Reconcile, row, met, now);
            && (met.lockTimeout ==> after == t)
            && (met.answer != Captured && met.answer != Declined ==> after == t)
            && (!met.lockTimeout && met.answer == Captured ==> ConfirmedAs(t, after, row.order, Some(Captured), now))
            && (!met.lockTimeout && met.answer == Declined ==> FailedAs(t, after, row.order, Some(Declined), now))
  {
    TriedMeans(t, opening, row.order, Some(met.answer), Confirm, now);
    TriedMeans(t, opening, row.order, Some(met.answer), Fail, now);
    ReconcileDecisions(t, row, met, now);
  }

  lemma ReconcileDecisions(t: Tables, row: Row, met: Met, now: int)
    requires row.sawPayment
    ensures Resolved(t, Reconcile, row, met, now) ==
            var (o, answer, late) := (row.order, met.answer, met.lockTimeout);
            if answer == Captured then Tried(t, o, Some(answer), Confirm, late, now)
            else if answer == Declined then Tried(t, o, Some(answer), Fail, late, now)
            else t
  {
  }

  /** What the reaper makes of one: without a payment row, or with a charge never made, it cancels and releases. */
  lemma ReapingMeans(t: Tables, opening: map<StockKey, int>, row: Row, met: Met, now: int)
    requires Consistent(t, opening) && row.order in t.orders && t.orders[row.order].status == PendingPayment
    ensures t.orders[row.order].warehouse.Some? && row.order in t.items
    ensures var o, answer, after := row.order, met.answer, Resolved(t, Reap, row, met, now);
            && (met.lockTimeout ==> after == t)
            && (row.sawPayment && answer !in {Captured, Declined, Failed} ==> after == t)
            && (!met.lockTimeout && !row.sawPayment ==>
                  CancelledAs(t, after, o, "RESERVATION_EXPIRED_NO_PAYMENT", None, now))
            && (!met.lockTimeout && row.sawPayment ==>
                  && (answer == Captured ==> ConfirmedAs(t, after, o, Some(Captured), now))
                  && (answer == Declined ==> FailedAs(t, after, o, Some(Declined), now))
                  && (answer == Failed ==>
                        CancelledAs(t, after, o, "RESERVATION_EXPIRED_NOT_CHARGED", Some(Failed), now)))
  {
    ReapDecisions(t, row, met, now);
    if !row.sawPayment {
      TriedMeans(t, opening, row.order, None, Cancel("RESERVATION_EXPIRED_NO_PAYMENT"), now);
    } else if met.answer == Captured {
      TriedMeans(t, opening, row.order, Some(Captured), Confirm, now);
    } else if met.answer == Declined {
      TriedMeans(t, opening, row.order, Some(Declined), Fail, now);
    } else {
      TriedMeans(t, opening, row.order, Some(Failed), Cancel("RESERVATION_EXPIRED_NOT_CHARGED"), now);
    }
  }

  /** The backlog is what the protocol lets the reaper select. */
  lemma BacklogIsReapable(s: State, o: OrderId, k: nat)
    requires k !in s.tasks
    ensures o in Backlog(s.tables, s.now) <==> Enabled(s, SelectOrder(k, Reap, o))
  {
  }

  ghost predicate ItemsDistinct(t: Tables) {
    forall o | o in t.items :: Distinct(t.items[o])
  }

  lemma ResolvedKeepsItems(t: Tables, kind: JobKind, row: Row, met: Met, now: int)
    ensures Resolved(t, kind, row, met, now).items == t.items
  {
  }

  /** One run of a job over the rows it selected, each settling through the tables in turn. */
  method Handle(db: Database, kind: JobKind, rows: seq<Row>, met: seq<Met>, now: int)
    requires |rows| == |met| && ItemsDistinct(db.Contents())
    requires kind == Reconcile ==> forall i | 0 <= i < |rows| :: rows[i].sawPayment
    modifies db
    ensures db.Contents() == ResolvedAll(old(db.Contents()), kind, rows, met, now)
  {
    ghost var before := db.Contents();
    for i := 0 to |rows|
      invariant ItemsDistinct(db.Contents())
      invariant ResolvedAll(before, kind, rows, met, now) ==
                  ResolvedAll(db.Contents(), kind, rows[i..], met[i..], now)
    {
      assert rows[i..][0] == rows[i] && rows[i..][1..] == rows[i + 1..];
      assert met[i..][0] == met[i] && met[i..][1..] == met[i + 1..];
      ResolvedKeepsItems(db.Contents(), kind, rows[i], met[i], now);
      if kind == Reap {
        var thrown := ResolveReservation(db, rows[i], met[i], now);
      } else {
        var thrown := ResolvePaymentRow(db, rows[i], met[i], now);
      }
    }
  }

  // ---------- the reaper drains its backlog ----------

  function Backlog(t: Tables, now: int): set<OrderId> {
    set o | o in t.orders && t.orders[o].status == PendingPayment && t.orders[o].expiresAt.Some?
      && t.orders[o].expiresAt.value < now
  }

  function Selected(rows: seq<Row>): set<OrderId> {
    set i | 0 <= i < |rows| :: rows[i].order
  }

  ghost predicate RowsDistinct(rows: seq<Row>) {
    forall i, j | 0 <= i < j < |rows| :: rows[i].order != rows[j].order
  }

  function ExpiryOf(t: Tables, o: OrderId): int {
    if o in t.orders && t.orders[o].expiresAt.Some? then t.orders[o].expiresAt.value else 0
  }

  /** ORDER BY reservation_expires_at LIMIT 50, with nobody holding a lock to skip. */
  ghost predicate IsSelection(t: Tables, now: int, rows: seq<Row>) {
    && RowsDistinct(rows)
    && Selected(rows) <= Backlog(t, now)
    && |rows| == (if |Backlog(t, now)| < BATCH_SIZE then |Backlog(t, now)| else BATCH_SIZE)
    && (forall i | 0 <= i < |rows| :: rows[i].sawPayment <==> rows[i].order in t.payments)
    && (forall i, j | 0 <= i < j < |rows| :: ExpiryOf(t, rows[i].order) <= ExpiryOf(t, rows[j].order))
    && (forall i, o | 0 <= i < |rows| && o in Backlog(t, now) - Selected(rows) ::
          ExpiryOf(t, rows[i].order) <= ExpiryOf(t, o))
  }

  /** The provider gives a final answer: charged, declined, or never seen. */
  predicate Final(answer: PaymentStatus) {
    answer in {Captured, Declined, Failed}
  }

  lemma SettledLeavesBacklog(t: Tables, o: OrderId, payment: Option<PaymentStatus>, action: Action, now: int)
    requires o in Backlog(t, now) && SettleTx(t, o, payment, action, now).Ok?
    ensures Backlog(AfterSettle(t, o, payment, action, now), now) == Backlog(t, now) - {o}
  {
    SettleWrites(t, o, payment, action, now);
  }

  /** The run takes this row's order off the backlog: never charged or finally answered, and in time. */
  predicate Settles(row: Row, met: Met) {
    !met.lockTimeout && (!row.sawPayment || Final(met.answer))
  }

  lemma ResolvedLeavesBacklog(t: Tables, opening: map<StockKey, int>, row: Row, met: Met, now: int)
    requires Consistent(t, opening) && row.order in Backlog(t, now)
    ensures var after := Resolved(t, Reap, row, met, now);
            && Consistent(after, opening)
            && (if Settles(row, met) then Backlog(after, now) == Backlog(t, now) - {row.order} else after == t)
  {
    assert OrderAgrees(t, row.order);
    if Settles(row, met) {
      var decision := Decide(Task(Reap, row.order, row.sawPayment, Some(met.answer)));
      SettlementLeavesBacklog(t, opening, row.order, decision.payment, decision.action, now);
    }
  }

  lemma SettlementLeavesBacklog(t: Tables, opening: map<StockKey, int>, o: OrderId, payment: Option<PaymentStatus>,
                                action: Action, now: int)
    requires Consistent(t, opening) && o in Backlog(t, now)
    ensures var after := AfterSettle(t, o, payment, action, now);
            Consistent(after, opening) && Backlog(after, now) == Backlog(t, now) - {o}
  {
    SettlementKeepsKeys(t, opening, o, payment, action, now);
    SettledLeavesBacklog(t, o, payment, action, now);
  }

  function Taken(rows: seq<Row>, met: seq<Met>): set<OrderId>
    requires |rows| == |met|
  {
    set i | 0 <= i < |rows| && Settles(rows[i], met[i]) :: rows[i].order
  }

  lemma TakenCons(rows: seq<Row>, met: seq<Met>)
    requires 0 < |rows| == |met|
    ensures Taken(rows, met) == (if Settles(rows[0], met[0]) then {rows[0].order} else {}) +
              Taken(rows[1..], met[1..])
  {
    var rest := Taken(rows[1..], met[1..]);
    forall o | o in Taken(rows, met)
      ensures o in (if Settles(rows[0], met[0]) then {rows[0].order} else {}) + rest
    {
      var i :| 0 <= i < |rows| && Settles(rows[i], met[i]) && rows[i].order == o;
      if i > 0 {
        assert rows[1..][i - 1] == rows[i] && met[1..][i - 1] == met[i];
      }
    }
    forall o | o in rest
      ensures o in Taken(rows, met)
    {
      var i :| 0 <= i < |rows[1..]| && Settles(rows[1..][i], met[1..][i]) && rows[1..][i].order == o;
      assert rows[i + 1] == rows[1..][i] && met[i + 1] == met[1..][i];
    }
  }

  /** Exactly the orders never charged or finally answered leave the backlog. */
  lemma {:induction false} BatchTakes(t: Tables, opening: map<StockKey, int>, rows: seq<Row>,
                                      met: seq<Met>, now: int)
    requires Consistent(t, opening) && |rows| == |met| && RowsDistinct(rows) && Selected(rows) <= Backlog(t, now)
    ensures var after := ResolvedAll(t, Reap, rows, met, now);
            Consistent(after, opening) && Backlog(after, now) == Backlog(t, now) - Taken(rows, met)
    decreases |rows|
  {
    if rows != [] {
      assert rows[0].order in Selected(rows);
      ResolvedLeavesBacklog(t, opening, rows[0], met[0], now);
      SelectedCons(rows);
      TakenCons(rows, met);
      BatchTakes(Resolved(t, Reap, rows[0], met[0], now), opening, rows[1..], met[1..], now);
    }
  }

  lemma SelectedCons(rows: seq<Row>)
    requires |rows| > 0 && RowsDistinct(rows)
    ensures Selected(rows) == {rows[0].order} + Selected(rows[1..]) && rows[0].order !in Selected(rows[1..])
    ensures RowsDistinct(rows[1..])
  {
    forall o | o in Selected(rows)
      ensures o in {rows[0].order} + Selected(rows[1..])
    {
      var i :| 0 <= i < |rows| && rows[i].order == o;
      if i > 0 {
        assert rows[1..][i - 1].order == o;
      }
    }
  }

  lemma {:induction false} SelectedSize(rows: seq<Row>)
    requires RowsDistinct(rows)
    ensures |Selected(rows)| == |rows|
  {
    if rows != [] {
      SelectedCons(rows);
      SelectedSize(rows[1..]);
    }
  }

  /** Distinct orders are all taken exactly when every one of them is. */
  lemma TakenSize(rows: seq<Row>, met: seq<Met>)
    requires |rows| == |met| && RowsDistinct(rows)
    ensures Taken(rows, met) <= Selected(rows)
    ensures |Taken(rows, met)| == |rows| <==> forall i | 0 <= i < |rows| :: Settles(rows[i], met[i])
  {
    SelectedSize(rows);
    var taken, all := Taken(rows, met), Selected(rows);
    if forall i | 0 <= i < |rows| :: Settles(rows[i], met[i]) {
      assert taken == all;
    } else {
      var i :| 0 <= i < |rows| && !Settles(rows[i], met[i]);
      assert rows[i].order in all && rows[i].order !in taken by {
        if rows[i].order in taken {
          var j :| 0 <= j < |rows| && Settles(rows[j], met[j]) && rows[j].order == rows[i].order;
        }
      }
      SubsetSize(taken, all - {rows[i].order});
    }
  }

  lemma RunTakes(t: Tables, opening: map<StockKey, int>, rows: seq<Row>, met: seq<Met>, now: int)
    requires Consistent(t, opening) && IsSelection(t, now, rows) && |rows| == |met|
    ensures |Backlog(ResolvedAll(t, Reap, rows, met, now), now)| == |Backlog(t, now)| - |Taken(rows, met)|
  {
    BatchTakes(t, opening, rows, met, now);
    TakenSize(rows, met);
    var backlog, taken := Backlog(t, now), Taken(rows, met);
    assert backlog == (backlog - taken) + taken;
  }

  /**
   A run takes min(n, 50) orders off a backlog of n if and only if every charge it asked about has a final
   answer and no stock row stays locked too long.
   */
  lemma RunShrinksBacklogIff(t: Tables, opening: map<StockKey, int>, rows: seq<Row>, met: seq<Met>, now: int)
    requires Consistent(t, opening) && IsSelection(t, now, rows) && |rows| == |met|
    ensures AllTaken(t, rows, met, now) <==>
            forall i | 0 <= i < |rows| :: !met[i].lockTimeout && (rows[i].sawPayment ==> Final(met[i].answer))
  {
    RunTakes(t, opening, rows, met, now);
    TakenSize(rows, met);
  }

  predicate AllTaken(t: Tables, rows: seq<Row>, met: seq<Met>, now: int)
    requires |rows| == |met|
  {
    var n := |Backlog(t, now)|;
    |Backlog(ResolvedAll(t, Reap, rows, met, now), now)| == if n < 50 then 0 else n - 50
  }

  /** One run takes min(n, 50) orders off a backlog of n. */
  lemma RunShrinksBacklog(t: Tables, opening: map<StockKey, int>, rows: seq<Row>, met: seq<Met>, now: int)
    requires Consistent(t, opening) && IsSelection(t, now, rows) && |rows| == |met|
    requires forall i | 0 <= i < |rows| :: Settles(rows[i], met[i])
    ensures var n := |Backlog(t, now)|;
            |Backlog(ResolvedAll(t, Reap, rows, met, now), now)| == if n < 50 then 0 else n - 50
  {
    RunShrinksBacklogIff(t, opening, rows, met, now);
  }

  /** The tables, the selection, what its rows meet with and the clock of one run in a series. */
  datatype ReaperRun = ReaperRun(before: Tables, rows: seq<Row>, met: seq<Met>, now: int)

  function After(run: ReaperRun): Tables
    requires |run.rows| == |run.met|
  {
    ResolvedAll(run.before, Reap, run.rows, run.met, run.now)
  }

  /** Successive runs; between them other actors may settle orders but nothing new expires. */
  ghost predicate Series(runs: seq<ReaperRun>, opening: map<StockKey, int>) {
    && (forall i | 0 <= i < |runs| ::
          && Consistent(runs[i].before, opening)
          && IsSelection(runs[i].before, runs[i].now, runs[i].rows)
          && |runs[i].rows| == |runs[i].met|
          && forall k | 0 <= k < |runs[i].rows| :: Settles(runs[i].rows[k], runs[i].met[k]))
    && (forall i | 0 < i < |runs| ::
          Backlog(runs[i].before, runs[i].now) <= Backlog(After(runs[i - 1]), runs[i - 1].now))
  }

  lemma {:induction false} SeriesShrinksBacklog(runs: seq<ReaperRun>, opening: map<StockKey, int>, i: nat)
    requires Series(runs, opening) && i < |runs|
    ensures |Backlog(runs[i].before, runs[i].now)| <= |Backlog(runs[0].before, runs[0].now)|
    ensures |Backlog(runs[i].before, runs[i].now)| > 0 ==>
              |Backlog(runs[i].before, runs[i].now)| <= |Backlog(runs[0].before, runs[0].now)| - i * BATCH_SIZE
  {
    if i > 0 {
      SeriesShrinksBacklog(runs, opening, i - 1);
      var prev := runs[i - 1];
      RunShrinksBacklog(prev.before, opening, prev.rows, prev.met, prev.now);
      SubsetSize(Backlog(runs[i].before, runs[i].now), Backlog(After(prev), prev.now));
    }
  }

  /** ceil(n / 50) runs clear a backlog of n. */
  lemma SeriesDrains(runs: seq<ReaperRun>, opening: map<StockKey, int>)
    requires Series(runs, opening) && |runs| > 0
    requires var n := |Backlog(runs[0].before, runs[0].now)|; |runs| == (n + 49) / 50
    ensures var last := runs[|runs| - 1]; Backlog(After(last), last.now) == {}
  {
    var last := runs[|runs| - 1];
    SeriesShrinksBacklog(runs, opening, |runs| - 1);
    RunShrinksBacklog(last.before, opening, last.rows, last.met, last.now);
  }

  /** A batch of orders whose charge stays unknown settles nothing. */
  lemma {:induction false} UnknownHeadBlocks(t: Tables, rows: seq<Row>, met: seq<Met>, now: int)
    requires |rows| == |met|
    requires forall i | 0 <= i < |rows| :: rows[i].sawPayment && met[i].answer == Unknown
    ensures ResolvedAll(t, Reap, rows, met, now) == t
    decreases |rows|
  {
    if rows != [] {
      UnknownHeadBlocks(t, rows[1..], met[1..], now);
    }
  }

  lemma BacklogGrows(t: Tables, now: int, later: int)
    requires now <= later
    ensures Backlog(t, now) <= Backlog(t, later)
    ensures forall o | o in Backlog(t, later) - Backlog(t, now) :: ExpiryOf(t, o) >= now
  {
  }

  /**
   The 50 oldest expired orders, all of them unknown to the provider, can be the next run's selection
   too, whatever has expired meanwhile: while they stay unknown they keep every other order waiting.
   */
  lemma UnknownHeadIsSelectedAgain(t: Tables, rows: seq<Row>, met: seq<Met>, now: int, later: int)
    requires IsSelection(t, now, rows) && |rows| == |met| == BATCH_SIZE && now <= later
    requires forall i | 0 <= i < |rows| :: rows[i].sawPayment && met[i].answer == Unknown
    ensures IsSelection(ResolvedAll(t, Reap, rows, met, now), later, rows)
  {
    UnknownHeadBlocks(t, rows, met, now);
    BacklogGrows(t, now, later);
    SelectedSize(rows);
    SubsetSize(Selected(rows), Backlog(t, later));
    forall i, o | 0 <= i < |rows| && o in Backlog(t, later) - Selected(rows)
      ensures ExpiryOf(t, rows[i].order) <= ExpiryOf(t, o)
    {
      assert rows[i].order in Selected(rows);
      if o in Backlog(t, now) {
        assert o in Backlog(t, now) - Selected(rows);
      }
    }
  }

  lemma BacklogSplits(t: Tables, rows: seq<Row>, now: int, later: int, r: OrderId, o: OrderId)
    requires IsSelection(t, now, rows) && now <= later && r in Selected(rows)
    requires forall x, y | x in Selected(rows) && y in Backlog(t, now) - Selected(rows) ::
               ExpiryOf(t, x) < ExpiryOf(t, y)
    requires o in Backlog(t, later) - Selected(rows)
    ensures ExpiryOf(t, r) < ExpiryOf(t, o)
  {
    assert r in Backlog(t, now);
    if o !in Backlog(t, now) {
      BacklogGrows(t, now, later);
      assert o in Backlog(t, later) - Backlog(t, now);
    }
  }

  /**
   If every other order expired by then expired later than those 50, any later run selects the same 50,
   whatever has expired meanwhile: while they stay unknown the rest wait.
   */
  lemma {:induction false} UnknownHeadIsTheSelection(t: Tables, rows: seq<Row>, met: seq<Met>, now: int, later: int,
                                                     next: seq<Row>)
    requires IsSelection(t, now, rows) && |rows| == |met| == BATCH_SIZE && now <= later
    requires forall i | 0 <= i < |rows| :: rows[i].sawPayment && met[i].answer == Unknown
    requires forall r, o | r in Selected(rows) && o in Backlog(t, now) - Selected(rows) ::
               ExpiryOf(t, r) < ExpiryOf(t, o)
    requires IsSelection(ResolvedAll(t, Reap, rows, met, now), later, next)
    ensures Selected(next) == Selected(rows)
  {
    UnknownHeadBlocks(t, rows, met, now);
    BacklogGrows(t, now, later);
    SelectedSize(rows);
    SelectedSize(next);
    SubsetSize(Selected(rows), Backlog(t, later));
    OldestAreSelected(t, rows, now, later, next);
  }

  lemma {:induction false} OldestAreSelected(t: Tables, rows: seq<Row>, now: int, later: int, next: seq<Row>)
    requires IsSelection(t, now, rows) && now <= later && IsSelection(t, later, next)
    requires Selected(rows) <= Backlog(t, later) && |Selected(rows)| == |Selected(next)|
    requires forall r, o | r in Selected(rows) && o in Backlog(t, now) - Selected(rows) ::
               ExpiryOf(t, r) < ExpiryOf(t, o)
    ensures Selected(next) == Selected(rows)
  {
    var before, again := Selected(rows), Selected(next);
    if before <= again {
      SameSizeSame(before, again);
    } else if again <= before {
      SameSizeSame(again, before);
    } else {
      var r, o :| r in before && r !in again && o in again && o !in before;
      BacklogSplits(t, rows, now, later, r, o);
    }
  }
}
