/**
 What the protocol promises over whole runs. Consistency and exactly-once settlement hold of every run;
 what is said of the provider's charges holds of runs whose jobs select safely and whose provider
 forgets nothing.
 */
module Guarantees {
  import opened Wrappers
  import opened Books
  import opened Orders
  import opened Tables
  import opened TablesLaws
  import opened Protocol
  import opened Consistency
  import opened ProviderTruth

  predicate HasStatus(s: State, o: OrderId, status: OrderStatus) {
    o in s.tables.orders && s.tables.orders[o].status == status
  }

  predicate IsSettled(s: State, o: OrderId) {
    o in s.tables.orders && s.tables.orders[o].status != PendingPayment
  }

  predicate ChargeApproved(s: State, o: OrderId) {
    o in s.records && s.records[o] == Approved
  }

  /** Conservation, replay and cross-table agreement hold in every committed state of every run. */
  lemma AlwaysConsistent(states: seq<State>, steps: seq<Step>, opening: map<StockKey, int>, i: nat)
    requires Run(states, steps, opening) && i < |states|
    ensures Consistent(states[i].tables, opening)
  {
    RunIsConsistent(states, steps, opening, i);
  }

  // ---------- exactly-once settlement ----------

  /** The order's row and everything the ledger holds about it are the same in both tables. */
  ghost predicate SameOrder(before: Tables, after: Tables, o: OrderId) {
    && o in before.orders && o in after.orders && after.orders[o] == before.orders[o]
    && (forall p :: Entries(after.books.ledger, o, p) == Entries(before.books.ledger, o, p))
  }

  lemma ReserveKeepsOrder(t: Tables, opening: map<StockKey, int>, cmd: ReserveCommand, lockTimeout: bool, now: int,
                          o: OrderId)
    requires Consistent(t, opening) && ValidLines(cmd.lines) && o in t.orders
    ensures var r := ReserveTx(t, cmd, lockTimeout, now); r.Ok? ==> SameOrder(t, r.value, o)
  {
    ReserveTxConsistent(t, opening, cmd, lockTimeout, now);
  }

  lemma SettleKeepsSettled(t: Tables, opening: map<StockKey, int>, q: OrderId, payment: Option<PaymentStatus>,
                           action: Action, now: int, o: OrderId)
    requires Consistent(t, opening) && q in t.orders && o in t.orders && t.orders[o].status != PendingPayment
    ensures SameOrder(t, AfterSettle(t, q, payment, action, now), o)
  {
    SettleTxConsistent(t, opening, q, payment, action, now);
  }

  predicate Transacts(step: Step) {
    step.TryReserve? || step.SettleSaga? || step.ResolveTask?
  }

  lemma OtherStepsKeepOrders(s: State, step: Step)
    requires Enabled(s, step) && !Transacts(step)
    ensures Apply(s, step).tables.orders == s.tables.orders && Apply(s, step).tables.books == s.tables.books
  {
  }

  lemma TransactionsKeepSettled(s: State, opening: map<StockKey, int>, step: Step, o: OrderId)
    requires RunConsistent(s, opening) && Enabled(s, step) && Transacts(step) && IsSettled(s, o)
    ensures SameOrder(s.tables, Apply(s, step).tables, o)
  {
    match step
    case TryReserve(q, lockTimeout) =>
      ReserveKeepsOrder(s.tables, opening, CommandFor(s.sagas[q].cart, q, s.sagas[q].rest[0]), lockTimeout, s.now, o);
    case SettleSaga(q) =>
      assert SagaFits(s, q);
      SettleKeepsSettled(s.tables, opening, q, None, PhaseThree(s.sagas[q].status).0, s.now, o);
    case ResolveTask(k) =>
      var task := s.tasks[k];
      SettleKeepsSettled(s.tables, opening, task.order, Decide(task).payment, Decide(task).action, s.now, o);
  }

  lemma StepKeepsSettled(s: State, opening: map<StockKey, int>, step: Step, o: OrderId)
    requires RunConsistent(s, opening) && Enabled(s, step) && IsSettled(s, o)
    ensures SameOrder(s.tables, Apply(s, step).tables, o)
  {
    if Transacts(step) {
      TransactionsKeepSettled(s, opening, step, o);
    } else {
      OtherStepsKeepOrders(s, step);
    }
  }

  /**
   Once an order has settled, whoever settles it again changes nothing: its row and its ledger
   entries are the same in every later state.
   */
  lemma {:induction false} SettledForever(states: seq<State>, steps: seq<Step>, opening: map<StockKey, int>,
                                          i: nat, j: nat, o: OrderId)
    requires Run(states, steps, opening) && i <= j < |states| && IsSettled(states[i], o)
    ensures SameOrder(states[i].tables, states[j].tables, o)
  {
    if i < j {
      SettledForever(states, steps, opening, i, j - 1, o);
      RunIsConsistent(states, steps, opening, j - 1);
      StepKeepsSettled(states[j - 1], opening, steps[j - 1], o);
    }
  }

  /** In every state of every run, an order has one job on each routed queue if it is confirmed and none otherwise. */
  lemma JobsFollowConfirmation(states: seq<State>, steps: seq<Step>, opening: map<StockKey, int>,
                               i: nat, o: OrderId, queue: Queue)
    requires Run(states, steps, opening) && i < |states|
    ensures states[i].tables.jobs[Job(queue, o)] == if HasStatus(states[i], o, Confirmed) then 1 else 0
  {
    RunIsConsistent(states, steps, opening, i);
  }

  /** The step settles the order: it finds it pending and leaves it settled. */
  predicate Settles(s: State, step: Step, o: OrderId)
    requires Enabled(s, step)
  {
    HasStatus(s, o, PendingPayment) && IsSettled(Apply(s, step), o)
  }

  lemma SettledAtMostOnce(states: seq<State>, steps: seq<Step>, opening: map<StockKey, int>, i: nat, j: nat, o: OrderId)
    requires Run(states, steps, opening) && i < |steps| && j < |steps|
    requires Settles(states[i], steps[i], o) && Settles(states[j], steps[j], o)
    ensures i == j
  {
    if i < j {
      SettledForever(states, steps, opening, i + 1, j, o);
    } else if j < i {
      SettledForever(states, steps, opening, j + 1, i, o);
    }
  }

  // ---------- provider truth ----------

  /**
   A confirmed order was charged, and its payment row says so. An order that failed or was cancelled
   was not charged and never will be: no later state holds an approved charge for it. Its client was
   told the truth.
   */
  lemma OrdersTellTheTruth(states: seq<State>, steps: seq<Step>, opening: map<StockKey, int>, i: nat, j: nat,
                           o: OrderId)
    requires Run(states, steps, opening) && Assumed(states, steps) && i <= j < |states|
    ensures HasStatus(states[i], o, Confirmed) ==>
              ChargeApproved(states[j], o) && o in states[j].tables.payments
                && states[j].tables.payments[o].status == Captured
    ensures HasStatus(states[i], o, PaymentFailed) || HasStatus(states[i], o, Cancelled) ==>
              !ChargeApproved(states[j], o)
    ensures o in states[i].sagas && states[i].sagas[o] == Finished(OrderConfirmed) ==>
              HasStatus(states[j], o, Confirmed)
    ensures o in states[i].sagas && states[i].sagas[o] == Finished(PaymentDeclined) ==>
              HasStatus(states[j], o, PaymentFailed)
  {
    RunInv(states, steps, opening, i);
    RunInv(states, steps, opening, j);
    assert Truthful(ViewOf(states[i], o));
    assert Truthful(ViewOf(states[j], o));
    if IsSettled(states[i], o) {
      SettledForever(states, steps, opening, i, j, o);
    }
  }

  lemma ReleaseMeansUnpaid(t: Tables, opening: map<StockKey, int>, o: OrderId, p: ProductId)
    requires Consistent(t, opening)
    requires o in t.orders ==> t.orders[o].status != PaymentFailed && t.orders[o].status != Cancelled
    ensures forall m | m in Entries(t.books.ledger, o, p) :: m.kind != RELEASE
  {
    if o in t.orders {
      assert OrderAgrees(t, o);
      if p in Products(t.items[o]) {
        var k :| 0 <= k < |t.items[o]| && t.items[o][k].product == p;
        assert LineHistory(t.books.ledger, o, t.orders[o].warehouse.value, t.items[o][k], t.orders[o].status);
      }
    }
  }

  /** Stock that was paid for is never released: not before the charge is approved, not after. */
  lemma PaidStockIsNeverReleased(states: seq<State>, steps: seq<Step>, opening: map<StockKey, int>, i: nat, j: nat,
                                 o: OrderId, p: ProductId)
    requires Run(states, steps, opening) && Assumed(states, steps) && i < |states| && j < |states|
    requires ChargeApproved(states[i], o)
    ensures forall m | m in Entries(states[j].tables.books.ledger, o, p) :: m.kind != RELEASE
  {
    AlwaysConsistent(states, steps, opening, j);
    if i <= j {
      ApprovedForever(states, steps, opening, i, j, o);
      OrdersTellTheTruth(states, steps, opening, j, j, o);
    } else {
      OrdersTellTheTruth(states, steps, opening, j, i, o);
    }
    ReleaseMeansUnpaid(states[j].tables, opening, o, p);
  }

  lemma {:induction false} ApprovedForever(states: seq<State>, steps: seq<Step>, opening: map<StockKey, int>,
                                           i: nat, j: nat, o: OrderId)
    requires Run(states, steps, opening) && ProviderRestart !in steps && i <= j < |states|
    requires ChargeApproved(states[i], o)
    ensures ChargeApproved(states[j], o)
  {
    if i < j {
      ApprovedForever(states, steps, opening, i, j - 1, o);
      assert states[j] == Apply(states[j - 1], steps[j - 1]);
      assert steps[j - 1] in steps;
    }
  }
}
