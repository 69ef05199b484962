/**
 What the grace period and the reservation TTL are for: if every saga is through with charging soon
 enough after its reservation, no job selects an order too early, and every guarantee holds.
 */
module Timing {
  import opened Wrappers
  import opened Books
  import opened Orders
  import opened Tables
  import opened Protocol
  import opened ProviderTruth

  /** When the order was reserved, as its expiry tells. */
  function ReservedAt(row: OrderRow): int {
    if row.expiresAt.Some? then row.expiresAt.value - RESERVATION_TTL_MS else 0
  }

  /** Reservations lie in the past, and a payment row is younger than its order's reservation. */
  ghost predicate TimesFit(s: State) {
    && (forall o | o in s.tables.orders ::
         s.tables.orders[o].expiresAt.Some? && ReservedAt(s.tables.orders[o]) <= s.now)
    && (forall o | o in s.tables.payments ::
         o in s.tables.orders && ReservedAt(s.tables.orders[o]) <= s.tables.payments[o].createdAt)
  }

  /** No settlement moves a reservation's time or a payment row's creation. */
  lemma SettleKeepsTimes(s: State, q: OrderId, payment: Option<PaymentStatus>, action: Action)
    requires TimesFit(s)
    ensures TimesFit(s.(tables := AfterSettle(s.tables, q, payment, action, s.now)))
  {
    var after := AfterSettle(s.tables, q, payment, action, s.now);
    forall o | o in after.orders
      ensures o in s.tables.orders && after.orders[o].expiresAt == s.tables.orders[o].expiresAt
    {
    }
    forall o | o in after.payments
      ensures o in s.tables.payments && after.payments[o].createdAt == s.tables.payments[o].createdAt
    {
    }
  }

  lemma ReserveAddsARow(t: Tables, cmd: ReserveCommand, lockTimeout: bool, now: int)
    requires ReserveTx(t, cmd, lockTimeout, now).Ok?
    ensures var after := ReserveTx(t, cmd, lockTimeout, now).value;
            && cmd.order in after.orders && after.orders[cmd.order].expiresAt == Some(now + RESERVATION_TTL_MS)
            && after.orders == t.orders[cmd.order := after.orders[cmd.order]]
            && cmd.order !in t.orders && after.payments == t.payments
  {
  }

  lemma ReserveKeepsTimes(s: State, o: OrderId, lockTimeout: bool)
    requires TimesFit(s) && Enabled(s, TryReserve(o, lockTimeout))
    ensures TimesFit(AfterAttempt(s, o, lockTimeout))
  {
    var saga := s.sagas[o];
    var r := ReserveTx(s.tables, CommandFor(saga.cart, o, saga.rest[0]), lockTimeout, s.now);
    if r.Ok? {
      ReserveAddsARow(s.tables, CommandFor(saga.cart, o, saga.rest[0]), lockTimeout, s.now);
    }
  }

  /** One clock for all, which does not step back. */
  predicate Forward(step: Step) {
    step.Tick? ==> step.ms >= 0
  }

  lemma StepKeepsTimes(s: State, step: Step)
    requires TimesFit(s) && Enabled(s, step) && Forward(step)
    ensures TimesFit(Apply(s, step))
  {
    match step
    case TryReserve(o, lockTimeout) => ReserveKeepsTimes(s, o, lockTimeout);
    case SettleSaga(o) => SettleKeepsTimes(s, o, None, PhaseThree(s.sagas[o].status).0);
    case ResolveTask(k) => SettleKeepsTimes(s, s.tasks[k].order, Decide(s.tasks[k]).payment, Decide(s.tasks[k]).action);
    case _ =>
  }

  lemma {:induction false} RunKeepsTimes(states: seq<State>, steps: seq<Step>, opening: map<StockKey, int>, i: nat)
    requires Run(states, steps, opening) && (forall step | step in steps :: Forward(step)) && i < |states|
    ensures TimesFit(states[i])
  {
    if i > 0 {
      RunKeepsTimes(states, steps, opening, i - 1);
      assert steps[i - 1] in steps;
      StepKeepsTimes(states[i - 1], steps[i - 1]);
    }
  }

  /** So long after its reservation, an order's saga neither charges nor has a request under way. */
  ghost predicate Prompt(s: State, limitMs: int) {
    forall o | o in s.tables.orders && ReservedAt(s.tables.orders[o]) + limitMs < s.now :: Quiescent(s, o)
  }

  lemma PromptIsTimely(s: State, limitMs: int)
    requires TimesFit(s) && limitMs <= RECONCILIATION_GRACE_MS && Prompt(s, limitMs)
    ensures Timely(s)
  {
    forall kind, o | Selectable(s, kind, o)
      ensures Quiescent(s, o)
    {
      assert RECONCILIATION_GRACE_MS <= RESERVATION_TTL_MS;
      assert ReservedAt(s.tables.orders[o]) + limitMs < s.now;
    }
  }

  /**
   Sagas done with charging within the grace period of their reservation are all the protocol asks of
   time: then whatever either job selects is quiescent, and every selection is safe.
   */
  lemma PromptRunsAreTimely(states: seq<State>, steps: seq<Step>, opening: map<StockKey, int>, limitMs: int)
    requires Run(states, steps, opening) && ProviderRestart !in steps && forall step | step in steps :: Forward(step)
    requires limitMs <= RECONCILIATION_GRACE_MS && forall s | s in states :: Prompt(s, limitMs)
    ensures forall i | 0 <= i < |states| :: Timely(states[i])
    ensures Assumed(states, steps)
  {
    forall i | 0 <= i < |states|
      ensures Timely(states[i])
    {
      RunKeepsTimes(states, steps, opening, i);
      PromptIsTimely(states[i], limitMs);
    }
    forall i | 0 <= i < |steps|
      ensures SafeStep(states[i], steps[i])
    {
      assert steps[i] in steps;
      if steps[i].SelectOrder? {
        assert Selectable(states[i], steps[i].kind, steps[i].order);
        QuiescentIsSafe(states[i], steps[i].kind, steps[i].order);
      }
    }
  }
}
