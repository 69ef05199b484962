/**
 What holds in every state of every run, however early a job selects an order and however often the
 provider forgets: the tables stay consistent, and sagas and jobs fit the orders they work on.
 */
module Consistency {
  import opened Wrappers
  import opened Books
  import opened Orders
  import opened Tables
  import opened TablesLaws
  import opened Protocol

  /** Between its reservation and its end a saga has its order's row, and no payment row before it charges. */
  predicate SagaFits(s: State, o: OrderId)
    requires o in s.sagas
  {
    match s.sagas[o]
    case Reserving(_, _, _) => o !in s.tables.orders
    case Reserved => o in s.tables.orders && o !in s.tables.payments
    case Charging(_) => o in s.tables.orders && o in s.tables.payments
    case Answered(_) => o in s.tables.orders && o in s.tables.payments
    case Settling(_) => o in s.tables.orders && o in s.tables.payments
    case _ => true
  }

  ghost predicate CartsValid(s: State) {
    forall o | o in s.sagas && s.sagas[o].Reserving? :: ValidLines(s.sagas[o].cart.lines)
  }

  /** Every order has a saga, and every payment row and every job an order. */
  ghost predicate ActorsFit(s: State) {
    && s.tables.orders.Keys <= s.sagas.Keys && s.tables.payments.Keys <= s.tables.orders.Keys
    && (forall o | o in s.sagas :: SagaFits(s, o))
    && (forall k | k in s.tasks :: s.tasks[k].order in s.tables.orders)
  }

  ghost predicate RunConsistent(s: State, opening: map<StockKey, int>) {
    Consistent(s.tables, opening) && ActorsFit(s) && CartsValid(s)
  }

  // ---------- settlements and saves ----------

  /** Which rows of orders and payments a settlement writes. */
  lemma SettleWrites(t: Tables, o: OrderId, payment: Option<PaymentStatus>, action: Action, now: int)
    requires o in t.orders && SettleTx(t, o, payment, action, now).Ok?
    ensures var after := AfterSettle(t, o, payment, action, now);
            && after.orders.Keys == t.orders.Keys
            && (forall q | q in t.orders && q != o :: after.orders[q] == t.orders[q])
            && (t.orders[o].status != PendingPayment ==> after == t)
            && (t.orders[o].status == PendingPayment ==>
                  after.orders[o].status == TargetStatus(action)
                    && after.payments == ResolvePayment(t.payments, o, payment, now))
  {
  }

  /** A settlement of any order, consistent tables given, commits and moves no key. */
  lemma SettlementKeepsKeys(t: Tables, opening: map<StockKey, int>, o: OrderId, payment: Option<PaymentStatus>,
                            action: Action, now: int)
    requires Consistent(t, opening) && o in t.orders
    ensures SettleTx(t, o, payment, action, now).Ok?
    ensures var after := AfterSettle(t, o, payment, action, now);
            Consistent(after, opening) && after.orders.Keys == t.orders.Keys && after.payments.Keys == t.payments.Keys
  {
    SettleTxConsistent(t, opening, o, payment, action, now);
    SettleWrites(t, o, payment, action, now);
  }

  lemma SavesConsistent(s: State, opening: map<StockKey, int>, step: Step)
    requires Consistent(s.tables, opening) && Enabled(s, step)
    requires step.SavePayment? || step.SaveResult?
    ensures Consistent(Apply(s, step).tables, opening)
  {
    var t, after := s.tables, Apply(s, step).tables;
    forall o | o in after.orders
      ensures OrderAgrees(after, o)
    {
      assert OrderAgrees(t, o);
    }
  }

  // ---------- every step of every actor ----------

  /** Every transaction of the protocol commits or is refused for stock: none aborts, none breaks the tables. */
  lemma StepConsistent(s: State, opening: map<StockKey, int>, step: Step)
    requires RunConsistent(s, opening) && Enabled(s, step)
    ensures Consistent(Apply(s, step).tables, opening)
    ensures step.SettleSaga? ==>
              SettleTx(s.tables, step.order, None, PhaseThree(s.sagas[step.order].status).0, s.now).Ok?
    ensures step.ResolveTask? ==>
              var task := s.tasks[step.task];
              SettleTx(s.tables, task.order, Decide(task).payment, Decide(task).action, s.now).Ok?
  {
    match step
    case TryReserve(o, lockTimeout) =>
      ReserveTxConsistent(s.tables, opening, CommandFor(s.sagas[o].cart, o, s.sagas[o].rest[0]), lockTimeout, s.now);
    case SettleSaga(o) =>
      assert SagaFits(s, o);
      SettlementKeepsKeys(s.tables, opening, o, None, PhaseThree(s.sagas[o].status).0, s.now);
    case ResolveTask(k) =>
      var task := s.tasks[k];
      SettlementKeepsKeys(s.tables, opening, task.order, Decide(task).payment, Decide(task).action, s.now);
    case SavePayment(_) => SavesConsistent(s, opening, step);
    case SaveResult(_) => SavesConsistent(s, opening, step);
    case _ =>
  }

  /** Tables with the same orders and payments keep every actor fitting. */
  lemma SameKeysFit(s: State, after: State)
    requires ActorsFit(s) && after.sagas.Keys == s.sagas.Keys
    requires after.tables.orders.Keys == s.tables.orders.Keys && after.tables.payments.Keys == s.tables.payments.Keys
    requires forall o | o in s.sagas && after.sagas[o] != s.sagas[o] :: SagaFits(after, o)
    requires forall k | k in after.tasks :: after.tasks[k].order in s.tables.orders
    ensures ActorsFit(after)
  {
    forall o | o in after.sagas
      ensures SagaFits(after, o)
    {
      assert SagaFits(s, o);
    }
  }

  /** What a reservation that goes through does to the keys of orders and payments. */
  lemma ReserveKeys(t: Tables, cmd: ReserveCommand, lockTimeout: bool, now: int)
    requires ReserveTx(t, cmd, lockTimeout, now).Ok?
    ensures var after := ReserveTx(t, cmd, lockTimeout, now).value;
            cmd.order !in t.orders && after.orders.Keys == t.orders.Keys + {cmd.order} && after.payments == t.payments
  {
  }

  lemma ReserveKeepsActors(s: State, o: OrderId, lockTimeout: bool)
    requires ActorsFit(s) && Enabled(s, TryReserve(o, lockTimeout))
    ensures ActorsFit(AfterAttempt(s, o, lockTimeout))
  {
    var cmd := CommandFor(s.sagas[o].cart, o, s.sagas[o].rest[0]);
    assert SagaFits(s, o);
    if ReserveTx(s.tables, cmd, lockTimeout, s.now).Ok? {
      ReserveKeys(s.tables, cmd, lockTimeout, s.now);
      ReservedFits(s, o, ReserveTx(s.tables, cmd, lockTimeout, s.now).value);
    } else {
      RefusedFits(s, o, AfterAttempt(s, o, lockTimeout).sagas[o]);
    }
  }

  lemma RefusedFits(s: State, o: OrderId, phase: Phase)
    requires ActorsFit(s) && o in s.sagas
             && (phase.Crashed? || phase.Finished? || (phase.Reserving? && s.sagas[o].Reserving?))
    ensures ActorsFit(s.(sagas := s.sagas[o := phase]))
  {
    assert SagaFits(s, o);
    SameKeysFit(s, s.(sagas := s.sagas[o := phase]));
  }

  lemma ReservedFits(s: State, o: OrderId, t: Tables)
    requires ActorsFit(s) && o in s.sagas && o !in s.tables.orders
    requires t.orders.Keys == s.tables.orders.Keys + {o} && t.payments == s.tables.payments
    ensures ActorsFit(s.(tables := t, sagas := s.sagas[o := Reserved]))
  {
    var after := s.(tables := t, sagas := s.sagas[o := Reserved]);
    forall q | q in after.sagas
      ensures SagaFits(after, q)
    {
      assert SagaFits(s, q);
    }
  }

  lemma SettleSagaKeepsActors(s: State, opening: map<StockKey, int>, o: OrderId)
    requires RunConsistent(s, opening) && Enabled(s, SettleSaga(o))
    ensures ActorsFit(Apply(s, SettleSaga(o)))
  {
    assert SagaFits(s, o);
    var (action, result) := PhaseThree(s.sagas[o].status);
    SettlementKeepsKeys(s.tables, opening, o, None, action, s.now);
    EndedFits(s, o, AfterSettle(s.tables, o, None, action, s.now), result);
  }

  lemma EndedFits(s: State, o: OrderId, t: Tables, result: SagaResult)
    requires ActorsFit(s) && o in s.sagas
    requires t.orders.Keys == s.tables.orders.Keys && t.payments.Keys == s.tables.payments.Keys
    ensures ActorsFit(s.(tables := t, sagas := s.sagas[o := Finished(result)]))
  {
    SameKeysFit(s, s.(tables := t, sagas := s.sagas[o := Finished(result)]));
  }

  lemma ResolveKeepsActors(s: State, opening: map<StockKey, int>, k: nat)
    requires RunConsistent(s, opening) && Enabled(s, ResolveTask(k))
    ensures ActorsFit(Apply(s, ResolveTask(k)))
  {
    var task := s.tasks[k];
    SettlementKeepsKeys(s.tables, opening, task.order, Decide(task).payment, Decide(task).action, s.now);
    SameKeysFit(s, Apply(s, ResolveTask(k)));
  }

  lemma SavesKeepActors(s: State, opening: map<StockKey, int>, step: Step)
    requires RunConsistent(s, opening) && Enabled(s, step) && (step.SavePayment? || step.SaveResult?)
    ensures ActorsFit(Apply(s, step))
  {
    var after := Apply(s, step);
    forall o | o in after.sagas
      ensures SagaFits(after, o)
    {
      assert SagaFits(s, o);
    }
  }

  lemma OthersKeepActors(s: State, step: Step)
    requires ActorsFit(s) && Enabled(s, step) && !step.TryReserve?
    requires !step.SettleSaga? && !step.ResolveTask? && !step.SavePayment? && !step.SaveResult?
    requires step.StartSaga? ==> step.order !in s.tables.orders
    ensures ActorsFit(Apply(s, step))
  {
    var after := Apply(s, step);
    forall o | o in after.sagas
      ensures SagaFits(after, o)
    {
      if o in s.sagas {
        assert SagaFits(s, o);
      }
    }
  }

  lemma StepKeepsCarts(s: State, step: Step)
    requires Enabled(s, step) && Admissible(step) && CartsValid(s)
    ensures CartsValid(Apply(s, step))
  {
  }

  lemma StepKeepsRunConsistent(s: State, opening: map<StockKey, int>, step: Step)
    requires RunConsistent(s, opening) && Admissible(step) && Enabled(s, step)
    ensures RunConsistent(Apply(s, step), opening)
  {
    StepConsistent(s, opening, step);
    StepKeepsCarts(s, step);
    match step
    case TryReserve(o, lockTimeout) => ReserveKeepsActors(s, o, lockTimeout);
    case SettleSaga(o) => SettleSagaKeepsActors(s, opening, o);
    case ResolveTask(k) => ResolveKeepsActors(s, opening, k);
    case SavePayment(_) => SavesKeepActors(s, opening, step);
    case SaveResult(_) => SavesKeepActors(s, opening, step);
    case _ => OthersKeepActors(s, step);
  }

  lemma {:induction false} RunIsConsistent(states: seq<State>, steps: seq<Step>, opening: map<StockKey, int>, i: nat)
    requires Run(states, steps, opening) && i < |states|
    ensures RunConsistent(states[i], opening)
  {
    if i > 0 {
      RunIsConsistent(states, steps, opening, i - 1);
      StepKeepsRunConsistent(states[i - 1], opening, steps[i - 1]);
    }
  }
}
