/**
 What every reachable state of the protocol says about one order: its status, its payment row, its
 saga and the provider's record never contradict each other. Orders interact only through stock,
 so each order is followed through a view of its own.
 */
module ProviderTruth {
  import opened Wrappers
  import opened Books
  import opened Orders
  import opened Tables
  import opened TablesLaws
  import opened Protocol
  import opened Consistency

  /** Everything but stock that concerns one order. */
  datatype View = View(order: Option<OrderStatus>, payment: Option<PaymentStatus>, phase: Option<Phase>,
                       wire: nat, record: Option<ChargeStatus>)

  function Lookup<K, V>(m: map<K, V>, k: K): Option<V> {
    if k in m then Some(m[k]) else None
  }

  function ViewOf(s: State, o: OrderId): View {
    View(if o in s.tables.orders then Some(s.tables.orders[o].status) else None,
         if o in s.tables.payments then Some(s.tables.payments[o].status) else None,
         Lookup(s.sagas, o), Wire(s, o), Lookup(s.records, o))
  }

  /** The provider's record backs this outcome. */
  predicate Recorded(v: View, status: PaymentStatus) {
    || (status == Captured && v.record == Some(Approved))
    || (status == Declined && v.record == Some(Refused))
  }

  // ---------- which selections are safe ----------

  /** The saga has requests left to send. */
  predicate CanSend(phase: Option<Phase>) {
    phase.Some? && (phase.value.Reserved? || (phase.value.Charging? && phase.value.sent < MAX_ATTEMPTS))
  }

  /** No charge is recorded and none can be any more. */
  predicate Hopeless(v: View) {
    v.record.None? && v.wire == 0 && !CanSend(v.phase)
  }

  /** The saga's second save may still write UNKNOWN over the payment row. */
  predicate MayOverwrite(phase: Option<Phase>) {
    phase.Some? && (phase.value.Charging? || phase.value == Answered(Unknown))
  }

  /** A job may pick the order up without breaking a promise, now or later. */
  predicate Safe(kind: JobKind, v: View) {
    && (MayOverwrite(v.phase) ==> v.record == Some(Refused) || Hopeless(v))
    && (kind == Reap && v.record.None? ==> Hopeless(v))
  }

  /** No step but a provider restart or an unsafe selection. */
  predicate SafeStep(s: State, step: Step) {
    step != ProviderRestart && (step.SelectOrder? ==> Safe(step.kind, ViewOf(s, step.order)))
  }

  /** The assumption on a run: jobs select safely, and the provider never forgets. */
  ghost predicate Assumed(states: seq<State>, steps: seq<Step>) {
    |states| == |steps| + 1 && forall i | 0 <= i < |steps| :: SafeStep(states[i], steps[i])
  }

  /** Waiting out the charging phase is safe for either job. */
  lemma QuiescentIsSafe(s: State, kind: JobKind, o: OrderId)
    requires Quiescent(s, o)
    ensures Safe(kind, ViewOf(s, o))
  {
  }

  // ---------- what is true of one order ----------

  predicate PhaseAgrees(v: View) {
    match v.phase
    case None => v.order.None?
    case Some(Reserving(_, _, _)) => v.order.None?
    case Some(Reserved) => v.order == Some(PendingPayment) && v.payment.None?
    case Some(Charging(_)) => v.order.Some? && v.payment.Some?
    case Some(Answered(status)) => v.order.Some? && v.payment.Some? && (status == Unknown || Recorded(v, status))
    case Some(Settling(status)) => v.order.Some? && v.payment == Some(status) && Recorded(v, status)
    case Some(Finished(result)) => ResultAgrees(v, result)
    case Some(Crashed) => true
  }

  /** The answer a finished saga gives its client is true of the tables. */
  predicate ResultAgrees(v: View, result: SagaResult) {
    match result
    case OrderConfirmed => v.order == Some(Confirmed)
    case PaymentDeclined => v.order == Some(PaymentFailed)
    case ProviderUnavailable => v.order.Some? && v.payment.Some?
    case RaceLost(_) => v.order.None?
  }

  predicate PaymentAgrees(v: View) {
    && (v.order.None? ==> v.payment.None?)
    && (v.payment.None? ==> v.record.None? && v.wire == 0)
    && (v.payment.Some? ==>
          match v.payment.value
          case Pending => true
          case Unknown => true
          case Captured => v.record == Some(Approved)
          case Declined => v.record == Some(Refused)
          case Failed => v.order == Some(Cancelled)
          case Authorized => false
          case Refunded => false)
  }

  predicate StatusAgrees(v: View) {
    v.order.Some? ==>
      match v.order.value
      case PendingPayment => true
      case Paid => false
      case Confirmed => v.record == Some(Approved) && v.payment == Some(Captured) && !MayOverwrite(v.phase)
      case PaymentFailed => v.record == Some(Refused)
      case Cancelled => Hopeless(v)
  }

  predicate Truthful(v: View) {
    PhaseAgrees(v) && PaymentAgrees(v) && StatusAgrees(v)
  }

  /** What a job has learnt about an order stays true until it acts on it. */
  predicate TaskAgrees(v: View, task: Task) {
    && v.order.Some? && Safe(task.kind, v)
    && (task.sawPayment ==> v.payment.Some?)
    && (!task.sawPayment ==> task.kind == Reap && task.answer.None? && v.record.None?)
    && (task.answer.Some? ==>
          || task.answer.value == Unknown
          || Recorded(v, task.answer.value)
          || (task.answer.value == Failed && (task.kind == Reap ==> v.record.None?)))
  }

  // ---------- moves of one view ----------

  function SettledView(v: View, payment: Option<PaymentStatus>, action: Action): View {
    if v.order != Some(PendingPayment) then v
    else v.(order := Some(TargetStatus(action)),
            payment := if payment.Some? && v.payment.Some? && v.payment.value in {Pending, Unknown}
                       then payment
                       else v.payment)
  }

  /** The moves a step can make on the order it concerns. */
  ghost predicate Moves(v: View, w: View) {
    || w == v
    || (v.phase.None? && w.phase.Some? && w.phase.value.Reserving? && w == v.(phase := w.phase))
    || (v.phase.Some? && PhaseMoves(v, v.phase.value, w))
    || (v.wire > 0 && w == v.(wire := v.wire - 1))
    || (v.wire > 0 && v.record.None? && w.record.Some? && w == v.(wire := v.wire - 1, record := w.record))
    || exists task: Task | TaskAgrees(v, task) && Decide(task).Resolve? ::
         w == SettledView(v, Decide(task).payment, Decide(task).action)
  }

  ghost predicate PhaseMoves(v: View, phase: Phase, w: View) {
    || (w == v.(phase := Some(Crashed)) && !phase.Finished?)
    || match phase
       case Reserving(_, _, _) =>
         || w == v.(order := Some(PendingPayment), phase := Some(Reserved))
         || (w == v.(phase := w.phase) && w.phase.Some?
             && (w.phase.value.Reserving? || (w.phase.value.Finished? && w.phase.value.result.RaceLost?)))
       case Reserved => w == v.(payment := Some(Pending), phase := Some(Charging(0)))
       case Charging(n) =>
         || (n < MAX_ATTEMPTS && w == v.(phase := Some(Charging(n + 1)), wire := v.wire + 1))
         || exists status: PaymentStatus | status == Unknown || Recorded(v, status) ::
              w == v.(phase := Some(Answered(status)))
       case Answered(status) =>
         w == v.(payment := Some(status),
                 phase := Some(if IsDefinitive(status) then Settling(status) else Finished(ProviderUnavailable)))
       case Settling(status) =>
         w == SettledView(v, None, PhaseThree(status).0).(phase := Some(Finished(PhaseThree(status).1)))
       case Finished(_) => false
       case Crashed => false
  }

  lemma MoveKeepsTruth(v: View, w: View)
    requires Truthful(v) && Moves(v, w)
    ensures Truthful(w)
  {
  }

  lemma MoveKeepsTask(v: View, w: View, task: Task)
    requires Truthful(v) && Moves(v, w) && TaskAgrees(v, task)
    ensures TaskAgrees(w, task)
  {
  }

  // ---------- steps of the protocol ----------

  ghost predicate Inv(s: State, opening: map<StockKey, int>) {
    && RunConsistent(s, opening)
    && (forall o :: Truthful(ViewOf(s, o)))
    && (forall k | k in s.tasks :: TaskAgrees(ViewOf(s, s.tasks[k].order), s.tasks[k]))
  }

  /** Settlement, seen from the order it concerns and from any other. */
  lemma SettleView(s: State, o: OrderId, payment: Option<PaymentStatus>, action: Action, other: OrderId)
    requires o in s.tables.orders && SettleTx(s.tables, o, payment, action, s.now).Ok?
    ensures var after := AfterSettle(s.tables, o, payment, action, s.now);
            ViewOf(s.(tables := after), other) ==
            if other == o then SettledView(ViewOf(s, o), payment, action) else ViewOf(s, other)
  {
    SettleWrites(s.tables, o, payment, action, s.now);
  }

  lemma SettleSagaMoves(s: State, o: OrderId, other: OrderId)
    requires Enabled(s, SettleSaga(o)) && o in s.tables.orders
    requires SettleTx(s.tables, o, None, PhaseThree(s.sagas[o].status).0, s.now).Ok?
    ensures Moves(ViewOf(s, other), ViewOf(Apply(s, SettleSaga(o)), other))
  {
    var (action, result) := PhaseThree(s.sagas[o].status);
    var t := s.(tables := AfterSettle(s.tables, o, None, action, s.now));
    SettleView(s, o, None, action, other);
    var v, w := ViewOf(s, other), ViewOf(Apply(s, SettleSaga(o)), other);
    if other == o {
      assert w == ViewOf(t, o).(phase := Some(Finished(result)));
      assert PhaseMoves(v, s.sagas[o], w);
    } else {
      assert w == ViewOf(t, other);
    }
  }

  lemma ResolveMoves(s: State, k: nat, other: OrderId)
    requires Enabled(s, ResolveTask(k)) && TaskAgrees(ViewOf(s, s.tasks[k].order), s.tasks[k])
    requires SettleTx(s.tables, s.tasks[k].order, Decide(s.tasks[k]).payment, Decide(s.tasks[k]).action, s.now).Ok?
    ensures Moves(ViewOf(s, other), ViewOf(Apply(s, ResolveTask(k)), other))
  {
    var task := s.tasks[k];
    var decision := Decide(task);
    SettleView(s, task.order, decision.payment, decision.action, other);
    var t := s.(tables := AfterSettle(s.tables, task.order, decision.payment, decision.action, s.now));
    assert ViewOf(Apply(s, ResolveTask(k)), other) == ViewOf(t, other);
  }

  lemma ReserveMoves(s: State, o: OrderId, lockTimeout: bool, other: OrderId)
    requires Enabled(s, TryReserve(o, lockTimeout))
    ensures Moves(ViewOf(s, other), ViewOf(AfterAttempt(s, o, lockTimeout), other))
  {
    if other == o {
      ReserveMovesOwn(s, o, lockTimeout);
    } else {
      ReserveMovesNoOther(s, o, lockTimeout, other);
    }
  }

  lemma ReserveMovesOwn(s: State, o: OrderId, lockTimeout: bool)
    requires Enabled(s, TryReserve(o, lockTimeout))
    ensures PhaseMoves(ViewOf(s, o), s.sagas[o], ViewOf(AfterAttempt(s, o, lockTimeout), o))
  {
    var saga := s.sagas[o];
    var r := ReserveTx(s.tables, CommandFor(saga.cart, o, saga.rest[0]), lockTimeout, s.now);
  }

  lemma ReserveMovesNoOther(s: State, o: OrderId, lockTimeout: bool, other: OrderId)
    requires Enabled(s, TryReserve(o, lockTimeout)) && other != o
    ensures ViewOf(AfterAttempt(s, o, lockTimeout), other) == ViewOf(s, other)
  {
  }

  lemma ChargeMoves(s: State, step: Step, other: OrderId)
    requires Enabled(s, step) && Truthful(ViewOf(s, other))
    requires step.SavePayment? || step.SendPost? || step.ChargeReturns? || step.SaveResult? || step.CrashSaga?
    ensures Moves(ViewOf(s, other), ViewOf(Apply(s, step), other))
  {
    var v, w := ViewOf(s, other), ViewOf(Apply(s, step), other);
    if other == step.order {
      assert PhaseMoves(v, s.sagas[other], w);
    } else {
      assert v == w;
    }
  }

  lemma WireMoves(s: State, step: Step, other: OrderId)
    requires Enabled(s, step)
    requires step.StartSaga? || step.LandPost? || step.LosePost?
    ensures Moves(ViewOf(s, other), ViewOf(Apply(s, step), other))
  {
    var v, w := ViewOf(s, other), ViewOf(Apply(s, step), other);
    if other != step.order {
      assert v == w;
    }
  }

  /** The clock and the jobs' own notes leave every order's view alone. */
  lemma AsideMoves(s: State, step: Step, other: OrderId)
    requires Enabled(s, step)
    requires step.Tick? || step.SelectOrder? || step.QueryStatus? || step.DropTask?
    ensures Moves(ViewOf(s, other), ViewOf(Apply(s, step), other))
  {
  }

  lemma SettlementMoves(s: State, opening: map<StockKey, int>, step: Step, other: OrderId)
    requires Inv(s, opening) && Enabled(s, step) && (step.SettleSaga? || step.ResolveTask?)
    ensures Moves(ViewOf(s, other), ViewOf(Apply(s, step), other))
  {
    StepConsistent(s, opening, step);
    if step.SettleSaga? {
      SettleSagaMoves(s, step.order, other);
    } else {
      ResolveMoves(s, step.task, other);
    }
  }

  /** Whatever the step, each order makes one of its own moves. */
  lemma StepMoves(s: State, opening: map<StockKey, int>, step: Step, other: OrderId)
    requires Inv(s, opening) && Enabled(s, step) && step != ProviderRestart
    ensures Moves(ViewOf(s, other), ViewOf(Apply(s, step), other))
  {
    if step.SettleSaga? || step.ResolveTask? {
      SettlementMoves(s, opening, step, other);
    } else if step.TryReserve? {
      ReserveMoves(s, step.order, step.lockTimeout, other);
    } else if step.Tick? || step.SelectOrder? || step.QueryStatus? || step.DropTask? {
      AsideMoves(s, step, other);
    } else if step.StartSaga? || step.LandPost? || step.LosePost? {
      WireMoves(s, step, other);
    } else {
      assert Truthful(ViewOf(s, other));
      ChargeMoves(s, step, other);
    }
  }

  lemma FreshTaskAgrees(s: State, k: nat, kind: JobKind, o: OrderId)
    requires Enabled(s, SelectOrder(k, kind, o)) && Safe(kind, ViewOf(s, o)) && Truthful(ViewOf(s, o))
    ensures var after := Apply(s, SelectOrder(k, kind, o)); TaskAgrees(ViewOf(after, o), after.tasks[k])
  {
  }

  lemma QueriedTaskAgrees(s: State, k: nat, answer: PaymentStatus)
    requires Enabled(s, QueryStatus(k, answer)) && TaskAgrees(ViewOf(s, s.tasks[k].order), s.tasks[k])
    ensures var after := Apply(s, QueryStatus(k, answer)); TaskAgrees(ViewOf(after, s.tasks[k].order), after.tasks[k])
  {
  }

  /** A task already there keeps its findings true; a fresh one starts with true ones, its selection being safe. */
  lemma StepKeepsTasks(s: State, opening: map<StockKey, int>, step: Step, k: nat)
    requires Inv(s, opening) && Enabled(s, step) && SafeStep(s, step)
    requires k in Apply(s, step).tasks
    ensures var after := Apply(s, step); TaskAgrees(ViewOf(after, after.tasks[k].order), after.tasks[k])
  {
    if k in s.tasks {
      StepKeepsTask(s, opening, step, k);
    } else {
      assert Selectable(s, step.kind, step.order);
      assert Truthful(ViewOf(s, step.order));
      FreshTaskAgrees(s, k, step.kind, step.order);
    }
  }

  lemma StepKeepsTask(s: State, opening: map<StockKey, int>, step: Step, k: nat)
    requires Inv(s, opening) && Enabled(s, step) && step != ProviderRestart
    requires k in s.tasks && k in Apply(s, step).tasks
    ensures var after := Apply(s, step); TaskAgrees(ViewOf(after, after.tasks[k].order), after.tasks[k])
  {
    var task := s.tasks[k];
    assert Truthful(ViewOf(s, task.order));
    if step.QueryStatus? && step.task == k {
      QueriedTaskAgrees(s, k, step.answer);
    } else {
      StepMoves(s, opening, step, task.order);
      MoveKeepsTask(ViewOf(s, task.order), ViewOf(Apply(s, step), task.order), task);
      StepKeepsOtherTasks(s, step, k);
    }
  }

  lemma StepKeepsOtherTasks(s: State, step: Step, k: nat)
    requires Enabled(s, step) && k in s.tasks && k in Apply(s, step).tasks && !(step.QueryStatus? && step.task == k)
    ensures Apply(s, step).tasks[k] == s.tasks[k]
  {
  }

  lemma StepKeepsInv(s: State, opening: map<StockKey, int>, step: Step)
    requires Inv(s, opening) && Admissible(step) && Enabled(s, step) && SafeStep(s, step)
    ensures Inv(Apply(s, step), opening)
  {
    var after := Apply(s, step);
    StepKeepsRunConsistent(s, opening, step);
    forall o
      ensures Truthful(ViewOf(after, o))
    {
      StepMoves(s, opening, step, o);
      MoveKeepsTruth(ViewOf(s, o), ViewOf(after, o));
    }
    forall k | k in after.tasks
      ensures TaskAgrees(ViewOf(after, after.tasks[k].order), after.tasks[k])
    {
      StepKeepsTasks(s, opening, step, k);
    }
  }

  lemma InitInv(s: State, opening: map<StockKey, int>)
    requires Init(s, opening)
    ensures Inv(s, opening)
  {
    forall o
      ensures Truthful(ViewOf(s, o))
    {
    }
  }

  lemma {:induction false} RunInv(states: seq<State>, steps: seq<Step>, opening: map<StockKey, int>, i: nat)
    requires Run(states, steps, opening) && Assumed(states, steps) && i < |states|
    ensures Inv(states[i], opening)
  {
    if i == 0 {
      InitInv(states[0], opening);
    } else {
      RunInv(states, steps, opening, i - 1);
      StepKeepsInv(states[i - 1], opening, steps[i - 1]);
    }
  }
}
