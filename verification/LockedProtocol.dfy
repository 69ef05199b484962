/**
 The protocol over row locks: sagas and jobs run their transactions lock by lock, interleaved with one
 another's, and go on when one commits. A transaction reads its clock when it likes, not when it
 commits. Every such run is a run of the protocol, so what holds of those holds here.
 */
module LockedProtocol {
  import opened Wrappers
  import opened Books
  import opened Orders
  import opened Tables
  import opened Protocol
  import opened Consistency
  import opened ProviderTruth
  import opened Guarantees
  import L = Locking
  import Serial = Serializability

  datatype Whole = Whole(core: State, locks: L.LockState)

  datatype WholeStep =
    | Plain(step: Step)
    | Locks(lock: L.LockStep)
    | CommitTx(tx: L.TxId, done: Step)

  /** The step is a transaction; a reservation that times out on a lock is one that aborts. */
  predicate TakesLocks(step: Step) {
    || (step.TryReserve? && !step.lockTimeout)
    || step.SavePayment? || step.SaveResult? || step.SettleSaga? || step.ResolveTask?
  }

  /** The transaction a saga or job runs for its step, on a clock of its own. */
  function WorkOf(s: State, step: Step, at: int): L.Work
    requires Enabled(s, step) && TakesLocks(step)
  {
    match step
    case TryReserve(o, _) => L.ReserveWork(CommandFor(s.sagas[o].cart, o, s.sagas[o].rest[0]), at)
    case SavePayment(o) => L.InsertPaymentWork(o, at)
    case SaveResult(o) => L.SaveChargeWork(o, s.sagas[o].status, at)
    case SettleSaga(o) => L.SettleWork(o, None, PhaseThree(s.sagas[o].status).0, at)
    case ResolveTask(k) => L.SettleWork(s.tasks[k].order, Decide(s.tasks[k]).payment, Decide(s.tasks[k]).action, at)
  }

  predicate CanDo(w: Whole, step: WholeStep) {
    match step
    case Plain(core) => Enabled(w.core, core) && !TakesLocks(core)
    case Locks(lock) => !lock.Commit? && L.CanStep(w.locks, lock)
    case CommitTx(id, core) =>
      && L.CanStep(w.locks, L.Commit(id)) && TakesLocks(core) && Enabled(w.core, core)
      && w.locks.txs[id].work == WorkOf(w.core, core, w.locks.txs[id].work.now)
  }

  /** The tables come from the locked transaction; the saga or job goes on as its step says. */
  function Do(w: Whole, step: WholeStep): Whole
    requires CanDo(w, step)
  {
    match step
    case Plain(core) => w.(core := Apply(w.core, core))
    case Locks(lock) => w.(locks := L.TakeStep(w.locks, lock))
    case CommitTx(id, core) =>
      var locks := L.TakeStep(w.locks, L.Commit(id));
      Whole(Apply(w.core.(now := w.locks.txs[id].work.now), core).(now := w.core.now, tables := locks.tables), locks)
  }

  ghost predicate WholeRun(states: seq<Whole>, steps: seq<WholeStep>, opening: map<StockKey, int>) {
    && |states| == |steps| + 1
    && Init(states[0].core, opening)
    && states[0].locks == L.LockState(states[0].core.tables, map[], map[])
    && forall i | 0 <= i < |steps| ::
         && (steps[i].Plain? ==> Admissible(steps[i].step))
         && CanDo(states[i], steps[i]) && states[i + 1] == Do(states[i], steps[i])
  }

  ghost predicate WholeAssumed(states: seq<Whole>, steps: seq<WholeStep>) {
    && |states| == |steps| + 1
    && forall i | 0 <= i < |steps| && steps[i].Plain? :: SafeStep(states[i].core, steps[i].step)
  }

  // ---------- one step ----------

  ghost predicate Agrees(w: Whole, opening: map<StockKey, int>) {
    w.core.tables == w.locks.tables && L.Locked(w.locks) && RunConsistent(w.core, opening)
  }

  /** Run alone, the transaction does to the tables what the protocol's step does at the transaction's clock. */
  lemma WorkIsStep(s: State, step: Step, at: int)
    requires ActorsFit(s) && Enabled(s, step) && TakesLocks(step)
    ensures L.Effect(s.tables, WorkOf(s, step, at)) == Apply(s.(now := at), step).tables
  {
    match step
    case SavePayment(o) => assert SagaFits(s, o);
    case _ =>
  }

  lemma PlainKeepsTables(s: State, step: Step)
    requires Enabled(s, step) && !TakesLocks(step)
    ensures Apply(s, step).tables == s.tables
  {
  }

  lemma AnyClockIsConsistent(s: State, opening: map<StockKey, int>, at: int)
    requires RunConsistent(s, opening)
    ensures RunConsistent(s.(now := at), opening)
  {
    assert forall o | o in s.sagas && SagaFits(s, o) :: SagaFits(s.(now := at), o);
  }

  /** A commit is the protocol's step, at the transaction's clock. */
  lemma CommitIsStep(w: Whole, opening: map<StockKey, int>, id: L.TxId, step: Step)
    requires Agrees(w, opening) && CanDo(w, CommitTx(id, step))
    ensures Do(w, CommitTx(id, step)).core == Apply(w.core.(now := w.locks.txs[id].work.now), step).(now := w.core.now)
  {
    Serial.StepKeepsLocked(w.locks, L.Commit(id));
    WorkIsStep(w.core, step, w.locks.txs[id].work.now);
  }

  lemma StepAgrees(w: Whole, opening: map<StockKey, int>, step: WholeStep)
    requires Agrees(w, opening) && CanDo(w, step) && (step.Plain? ==> Admissible(step.step))
    ensures Agrees(Do(w, step), opening)
  {
    match step
    case Plain(core) =>
      PlainKeepsTables(w.core, core);
      StepKeepsRunConsistent(w.core, opening, core);
    case Locks(lock) => Serial.StepKeepsLocked(w.locks, lock);
    case CommitTx(id, core) =>
      var at := w.locks.txs[id].work.now;
      Serial.StepKeepsLocked(w.locks, L.Commit(id));
      CommitIsStep(w, opening, id, core);
      AnyClockIsConsistent(w.core, opening, at);
      StepKeepsRunConsistent(w.core.(now := at), opening, core);
      AnyClockIsConsistent(Apply(w.core.(now := at), core), opening, w.core.now);
  }

  lemma {:induction false} RunAgrees(states: seq<Whole>, steps: seq<WholeStep>, opening: map<StockKey, int>, i: nat)
    requires WholeRun(states, steps, opening) && i < |states|
    ensures Agrees(states[i], opening)
  {
    if i == 0 {
      assert Serial.LockRun([states[0].locks], []);
      Serial.LocksStayHonest([states[0].locks], [], 0);
    } else {
      RunAgrees(states, steps, opening, i - 1);
      StepAgrees(states[i - 1], opening, steps[i - 1]);
    }
  }

  // ---------- whole runs are runs of the protocol ----------

  /** The place[i]-th of the states is the i-th one here. */
  ghost predicate Placed(whole: seq<Whole>, states: seq<State>, place: seq<nat>) {
    && |place| == |whole| > 0
    && (forall i | 0 <= i < |place| :: place[i] < |states| && states[place[i]] == whole[i].core)
    && (forall i, j | 0 <= i <= j < |place| :: place[i] <= place[j])
  }

  lemma AddStep(states: seq<State>, steps: seq<Step>, opening: map<StockKey, int>, step: Step)
    returns (longer: seq<State>, more: seq<Step>)
    requires Run(states, steps, opening) && Admissible(step) && Enabled(states[|steps|], step)
    ensures Run(longer, more, opening) && states <= longer && |more| == |steps| + 1
    ensures longer[|more|] == Apply(states[|steps|], step)
    ensures Assumed(states, steps) && SafeStep(states[|steps|], step) ==> Assumed(longer, more)
  {
    longer, more := states + [Apply(states[|steps|], step)], steps + [step];
  }

  lemma SetClock(states: seq<State>, steps: seq<Step>, opening: map<StockKey, int>, at: int)
    returns (longer: seq<State>, more: seq<Step>)
    requires Run(states, steps, opening)
    ensures Run(longer, more, opening) && states <= longer && |more| == |steps| + 1
    ensures longer[|more|] == states[|steps|].(now := at)
    ensures Assumed(states, steps) ==> Assumed(longer, more)
  {
    longer, more := AddStep(states, steps, opening, Tick(at - states[|steps|].now));
  }

  /** For a commit the protocol's clock is set to the transaction's, and back after the step. */
  lemma AddCommit(states: seq<State>, steps: seq<Step>, opening: map<StockKey, int>, step: Step, at: int)
    returns (longer: seq<State>, more: seq<Step>)
    requires Run(states, steps, opening) && TakesLocks(step) && Enabled(states[|steps|], step)
    ensures var s := states[|steps|];
            && Run(longer, more, opening) && states <= longer && |steps| <= |more|
            && longer[|more|] == Apply(s.(now := at), step).(now := s.now)
    ensures Assumed(states, steps) ==> Assumed(longer, more)
  {
    var s := states[|steps|];
    ClockLeavesEnabled(s, step, at);
    var first, one := SetClock(states, steps, opening, at);
    var second, two := AddStep(first, one, opening, step);
    longer, more := SetClock(second, two, opening, s.now);
  }

  lemma ClockLeavesEnabled(s: State, step: Step, at: int)
    requires TakesLocks(step) && Enabled(s, step)
    ensures Enabled(s.(now := at), step) && Apply(s.(now := at), step).now == at && Admissible(step)
  {
  }

  /** The protocol follows a step here. */
  lemma Follow(w: Whole, step: WholeStep, states: seq<State>, steps: seq<Step>, opening: map<StockKey, int>)
    returns (longer: seq<State>, more: seq<Step>)
    requires Agrees(w, opening) && CanDo(w, step) && (step.Plain? ==> Admissible(step.step))
    requires Run(states, steps, opening) && states[|steps|] == w.core
    ensures Run(longer, more, opening) && states <= longer && |steps| <= |more| && longer[|more|] == Do(w, step).core
    ensures Assumed(states, steps) && (step.Plain? ==> SafeStep(w.core, step.step)) ==> Assumed(longer, more)
  {
    match step
    case Plain(core) =>
      longer, more := AddStep(states, steps, opening, core);
    case Locks(_) =>
      longer, more := states, steps;
    case CommitTx(id, core) =>
      CommitIsStep(w, opening, id, core);
      longer, more := AddCommit(states, steps, opening, core, w.locks.txs[id].work.now);
  }

  lemma PlaceGrows(whole: seq<Whole>, states: seq<State>, place: seq<nat>, longer: seq<State>, w: Whole, at: nat)
    requires Placed(whole, states, place) && states <= longer && place[|place| - 1] <= at < |longer|
             && longer[at] == w.core
    ensures Placed(whole + [w], longer, place + [at])
  {
  }

  /** step leads from one state to the next, and its safety, if claimed, is given. */
  ghost predicate LeadsOn(w: Whole, step: WholeStep, next: Whole, opening: map<StockKey, int>, safe: bool) {
    && Agrees(w, opening) && CanDo(w, step) && next == Do(w, step)
    && (step.Plain? ==> Admissible(step.step) && (safe ==> SafeStep(w.core, step.step)))
  }

  lemma ProjectStep(whole: seq<Whole>, step: WholeStep, next: Whole, opening: map<StockKey, int>, safe: bool,
                    states: seq<State>, steps: seq<Step>, place: seq<nat>)
    returns (longer: seq<State>, more: seq<Step>, places: seq<nat>)
    requires Placed(whole, states, place) && Run(states, steps, opening) && place[|place| - 1] == |steps|
    requires LeadsOn(whole[|whole| - 1], step, next, opening, safe)
    ensures Run(longer, more, opening) && Placed(whole + [next], longer, places) && places[|whole|] == |more|
    ensures safe && Assumed(states, steps) ==> Assumed(longer, more)
  {
    longer, more := Follow(whole[|whole| - 1], step, states, steps, opening);
    PlaceGrows(whole, states, place, longer, next, |more|);
    places := place + [|more|];
  }

  lemma RunLeadsOn(whole: seq<Whole>, ws: seq<WholeStep>, opening: map<StockKey, int>, k: nat)
    requires WholeRun(whole, ws, opening) && k < |ws|
    ensures LeadsOn(whole[k], ws[k], whole[k + 1], opening, false)
    ensures WholeAssumed(whole, ws) ==> LeadsOn(whole[k], ws[k], whole[k + 1], opening, true)
  {
    RunAgrees(whole, ws, opening, k);
  }

  lemma {:induction false} Project(whole: seq<Whole>, ws: seq<WholeStep>, opening: map<StockKey, int>, safe: bool)
    returns (states: seq<State>, steps: seq<Step>, place: seq<nat>)
    requires |whole| == |ws| + 1 && Init(whole[0].core, opening)
    requires forall k | 0 <= k < |ws| :: LeadsOn(whole[k], ws[k], whole[k + 1], opening, safe)
    ensures Run(states, steps, opening) && Placed(whole, states, place) && place[|ws|] == |steps|
    ensures safe ==> Assumed(states, steps)
  {
    var n := |ws|;
    if n == 0 {
      states, steps, place := [whole[0].core], [], [0];
    } else {
      assert LeadsOn(whole[n - 1], ws[n - 1], whole[n], opening, safe);
      states, steps, place := Project(whole[..n], ws[..n - 1], opening, safe);
      states, steps, place := ProjectStep(whole[..n], ws[n - 1], whole[n], opening, safe, states, steps, place);
      assert whole == whole[..n] + [whole[n]];
    }
  }

  /** Some run of the protocol passes through the states of this one. */
  lemma Projection(whole: seq<Whole>, ws: seq<WholeStep>, opening: map<StockKey, int>)
    returns (states: seq<State>, steps: seq<Step>, place: seq<nat>)
    requires WholeRun(whole, ws, opening)
    ensures Run(states, steps, opening) && Placed(whole, states, place)
    ensures WholeAssumed(whole, ws) ==> Assumed(states, steps)
  {
    forall k | 0 <= k < |ws|
      ensures LeadsOn(whole[k], ws[k], whole[k + 1], opening, false)
      ensures WholeAssumed(whole, ws) ==> LeadsOn(whole[k], ws[k], whole[k + 1], opening, true)
    {
      RunLeadsOn(whole, ws, opening, k);
    }
    if WholeAssumed(whole, ws) {
      states, steps, place := Project(whole, ws, opening, true);
    } else {
      states, steps, place := Project(whole, ws, opening, false);
    }
  }

  // ---------- so the guarantees carry over ----------

  /** Conservation, replay and cross-table agreement, one job per queue for confirmed orders alone. */
  lemma LockedRunsAreConsistent(whole: seq<Whole>, ws: seq<WholeStep>, opening: map<StockKey, int>, i: nat, o: OrderId,
                                queue: Queue)
    requires WholeRun(whole, ws, opening) && i < |whole|
    ensures Consistent(whole[i].locks.tables, opening)
    ensures whole[i].locks.tables.jobs[Job(queue, o)] == if HasStatus(whole[i].core, o, Confirmed) then 1 else 0
  {
    RunAgrees(whole, ws, opening, i);
  }

  /** Once settled, an order keeps its row and its ledger entries, whoever locks it afterwards. */
  lemma LockedSettledForever(whole: seq<Whole>, ws: seq<WholeStep>, opening: map<StockKey, int>, i: nat, j: nat,
                             o: OrderId)
    requires WholeRun(whole, ws, opening) && i <= j < |whole| && IsSettled(whole[i].core, o)
    ensures SameOrder(whole[i].locks.tables, whole[j].locks.tables, o)
  {
    var states, steps, place := Projection(whole, ws, opening);
    SettledForever(states, steps, opening, place[i], place[j], o);
    RunAgrees(whole, ws, opening, i);
    RunAgrees(whole, ws, opening, j);
  }

  /** At most one step settles an order. */
  lemma LockedSettledAtMostOnce(whole: seq<Whole>, ws: seq<WholeStep>, opening: map<StockKey, int>, i: nat, j: nat,
                                o: OrderId)
    requires WholeRun(whole, ws, opening) && i < |ws| && j < |ws|
    requires HasStatus(whole[i].core, o, PendingPayment) && IsSettled(whole[i + 1].core, o)
    requires HasStatus(whole[j].core, o, PendingPayment) && IsSettled(whole[j + 1].core, o)
    ensures i == j
  {
    if i < j {
      LockedSettledForever(whole, ws, opening, i + 1, j, o);
      RunAgrees(whole, ws, opening, j);
      RunAgrees(whole, ws, opening, i + 1);
    } else if j < i {
      LockedSettledForever(whole, ws, opening, j + 1, i, o);
      RunAgrees(whole, ws, opening, i);
      RunAgrees(whole, ws, opening, j + 1);
    }
  }

  /** Confirmed orders are charged and say so; failed and cancelled ones are not charged, then or later. */
  lemma LockedOrdersTellTheTruth(whole: seq<Whole>, ws: seq<WholeStep>, opening: map<StockKey, int>, i: nat, j: nat,
                                 o: OrderId)
    requires WholeRun(whole, ws, opening) && WholeAssumed(whole, ws) && i <= j < |whole|
    ensures HasStatus(whole[i].core, o, Confirmed) ==>
              && ChargeApproved(whole[j].core, o)
              && o in whole[j].locks.tables.payments && whole[j].locks.tables.payments[o].status == Captured
    ensures HasStatus(whole[i].core, o, PaymentFailed) || HasStatus(whole[i].core, o, Cancelled) ==>
              !ChargeApproved(whole[j].core, o)
  {
    var states, steps, place := Projection(whole, ws, opening);
    OrdersTellTheTruth(states, steps, opening, place[i], place[j], o);
    RunAgrees(whole, ws, opening, j);
  }

  // ---------- and nobody waits for ever ----------

  /** In no state of such a run do transactions wait for one another in a cycle. */
  lemma LockedNoWaitCycle(whole: seq<Whole>, ws: seq<WholeStep>, opening: map<StockKey, int>, i: nat,
                          path: seq<L.TxId>)
    requires WholeRun(whole, ws, opening) && i < |whole| && Serial.WaitPath(whole[i].locks, path)
    ensures path[0] != path[|path| - 1] && !Serial.Waits(whole[i].locks, path[|path| - 1], path[0])
  {
    RunAgrees(whole, ws, opening, i);
    Serial.NoWaitCycle(whole[i].locks, path);
  }

  /** The transaction's next lock is free, so that the run can go on with it. */
  predicate CanLock(w: Whole, id: L.TxId) {
    CanDo(w, Locks(L.Acquire(id)))
  }

  /** It holds all its locks, and, if a saga or job still waits for it, the run can go on with its commit. */
  ghost predicate CanFinish(w: Whole, id: L.TxId) {
    && L.CanStep(w.locks, L.Commit(id))
    && forall step | Wants(w, id, step) :: CanDo(w, CommitTx(id, step))
  }

  /** The step of a saga or job that the transaction was begun for. */
  ghost predicate Wants(w: Whole, id: L.TxId, step: Step) {
    && id in w.locks.txs && TakesLocks(step) && Enabled(w.core, step)
    && w.locks.txs[id].work == WorkOf(w.core, step, w.locks.txs[id].work.now)
  }

  /** In every state of such a run, while a transaction is under way, one can take its next lock or commit. */
  lemma LockedNeverStuck(whole: seq<Whole>, ws: seq<WholeStep>, opening: map<StockKey, int>, i: nat)
    requires WholeRun(whole, ws, opening) && i < |whole| && whole[i].locks.txs != map[]
    ensures exists id :: id in whole[i].locks.txs && (CanLock(whole[i], id) || CanFinish(whole[i], id))
  {
    RunAgrees(whole, ws, opening, i);
    Serial.NeverStuck(whole[i].locks);
    var id :| id in whole[i].locks.txs && Serial.CanGoOn(whole[i].locks, id);
    GoesOn(whole[i], id);
  }

  lemma GoesOn(w: Whole, id: L.TxId)
    requires id in w.locks.txs && Serial.CanGoOn(w.locks, id)
    ensures CanLock(w, id) || CanFinish(w, id)
  {
  }
}
