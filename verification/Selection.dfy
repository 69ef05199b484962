/**
 Why jobs wait before they select, and exactly which selections are safe. A selection of an order that
 can still be charged, or whose payment row its saga may still overwrite, leads to a broken promise;
 every other selection leads to none.
 */
module Selection {
  import opened Wrappers
  import opened Books
  import opened Orders
  import opened Tables
  import opened TablesLaws
  import opened Protocol
  import opened Consistency
  import opened ProviderTruth
  import opened Guarantees

  /** What the service promises of an order, broken: confirmed without its captured charge, or ended with one. */
  predicate Broken(s: State, o: OrderId) {
    || (HasStatus(s, o, Confirmed) &&
        !(ChargeApproved(s, o) && o in s.tables.payments && s.tables.payments[o].status == Captured))
    || ((HasStatus(s, o, PaymentFailed) || HasStatus(s, o, Cancelled)) && ChargeApproved(s, o))
  }

  // ---------- continuations ----------

  /** One more step of a run whose selections are safe and whose provider keeps its records. */
  ghost predicate Fine(s: State, step: Step) {
    Admissible(step) && Enabled(s, step) && SafeStep(s, step)
  }

  ghost function Exec(s: State, steps: seq<Step>): Option<State>
    decreases |steps|
  {
    if steps == [] then Some(s) else if Fine(s, steps[0]) then Exec(Apply(s, steps[0]), steps[1..]) else None
  }

  /** Some such steps lead from one state to the other. */
  ghost predicate Leads(s: State, after: State) {
    exists steps :: Exec(s, steps) == Some(after)
  }

  lemma {:induction false} ExecAppend(s: State, steps: seq<Step>, last: Step)
    requires Exec(s, steps).Some? && Fine(Exec(s, steps).value, last)
    ensures Exec(s, steps + [last]) == Some(Apply(Exec(s, steps).value, last))
    decreases |steps|
  {
    if steps != [] {
      assert (steps + [last])[1..] == steps[1..] + [last];
      ExecAppend(Apply(s, steps[0]), steps[1..], last);
    }
  }

  lemma {:induction false} ExecConcat(s: State, a: seq<Step>, b: seq<Step>)
    requires Exec(s, a).Some?
    ensures Exec(s, a + b) == Exec(Exec(s, a).value, b)
    decreases |a|
  {
    if a == [] {
      assert a + b == b;
    } else {
      assert (a + b)[1..] == a[1..] + b;
      ExecConcat(Apply(s, a[0]), a[1..], b);
    }
  }

  lemma LeadsFar(s: State, mid: State, after: State)
    requires Leads(s, mid) && Leads(mid, after)
    ensures Leads(s, after)
  {
    var a :| Exec(s, a) == Some(mid);
    var b :| Exec(mid, b) == Some(after);
    ExecConcat(s, a, b);
  }

  lemma LeadsNowhere(s: State)
    ensures Leads(s, s)
  {
    assert Exec(s, []) == Some(s);
  }

  lemma LeadsOn(s: State, mid: State, step: Step)
    requires Leads(s, mid) && Fine(mid, step)
    ensures Leads(s, Apply(mid, step))
  {
    var steps :| Exec(s, steps) == Some(mid);
    ExecAppend(s, steps, step);
  }

  // ---------- the reaper too early ----------

  /** The saga may yet have a charge land: it still sends, or a request is under way. */
  predicate StillChargeable(s: State, o: OrderId) {
    Wire(s, o) > 0 || CanSend(Lookup(s.sagas, o))
  }

  /** What settling a pending order leaves of it and of the payments. */
  lemma SettlementWins(t: Tables, opening: map<StockKey, int>, o: OrderId, payment: Option<PaymentStatus>,
                       action: Action, now: int)
    requires Consistent(t, opening) && o in t.orders && t.orders[o].status == PendingPayment
    ensures var after := AfterSettle(t, o, payment, action, now);
            o in after.orders && after.orders[o].status == TargetStatus(action)
              && after.payments.Keys == t.payments.Keys
  {
    SettleTxConsistent(t, opening, o, payment, action, now);
    SettleWrites(t, o, payment, action, now);
  }

  /** A cancelling task on a pending order, resolved. */
  lemma CancelResolves(s: State, opening: map<StockKey, int>, k: nat)
    requires Consistent(s.tables, opening) && Enabled(s, ResolveTask(k))
    requires HasStatus(s, s.tasks[k].order, PendingPayment) && Decide(s.tasks[k]).action.Cancel?
    ensures var after, o := Apply(s, ResolveTask(k)), s.tasks[k].order;
            && HasStatus(after, o, Cancelled)
            && after.records == s.records && after.wire == s.wire && after.sagas == s.sagas
            && after.tables.payments.Keys == s.tables.payments.Keys
  {
    SettlementWins(s.tables, opening, s.tasks[k].order, Decide(s.tasks[k]).payment, Decide(s.tasks[k]).action, s.now);
  }

  /** The selection as a step. */
  function Selected(s: State, k: nat, kind: JobKind, o: OrderId): State
    requires Enabled(s, SelectOrder(k, kind, o))
  {
    Apply(s, SelectOrder(k, kind, o))
  }

  /** Having selected it, the reaper learns that no charge is known. */
  lemma ReaperDecides(s: State, o: OrderId, k: nat) returns (mid: State)
    requires Expired(s, o) && o !in s.records && k !in s.tasks
    ensures Leads(Selected(s, k, Reap, o), mid) && mid == s.(tasks := mid.tasks)
    ensures k in mid.tasks && mid.tasks[k].order == o
    ensures Decide(mid.tasks[k]).Resolve? && Decide(mid.tasks[k]).action.Cancel?
  {
    mid := Selected(s, k, Reap, o);
    LeadsNowhere(mid);
    if o in s.tables.payments {
      LeadsOn(mid, mid, QueryStatus(k, Failed));
      mid := Apply(mid, QueryStatus(k, Failed));
    }
  }

  /** The reaper cancels an expired order of which the provider knows no charge. */
  lemma ReaperCancels(s: State, opening: map<StockKey, int>, o: OrderId, k: nat) returns (after: State)
    requires Consistent(s.tables, opening) && Expired(s, o) && o !in s.records && k !in s.tasks
    ensures Leads(Selected(s, k, Reap, o), after) && HasStatus(after, o, Cancelled)
    ensures after.records == s.records && after.wire == s.wire && after.sagas == s.sagas
    ensures after.tables.payments.Keys == s.tables.payments.Keys
  {
    var mid := ReaperDecides(s, o, k);
    CancelResolves(mid, opening, k);
    LeadsOn(Selected(s, k, Reap, o), mid, ResolveTask(k));
    after := Apply(mid, ResolveTask(k));
  }

  /** A saga with requests left sends one, whatever became of its order. */
  lemma StillSends(s: State, mid: State, o: OrderId) returns (after: State)
    requires Leads(s, mid) && CanSend(Lookup(mid.sagas, o)) && o in mid.tables.orders
    ensures Leads(s, after) && Wire(after, o) > 0 && after.records == mid.records && after.tasks == mid.tasks
    ensures after.tables.orders == mid.tables.orders && after.tables.books == mid.tables.books
    ensures mid.sagas[o].Charging? ==>
              after.tables == mid.tables && o in after.sagas && after.sagas[o].Charging?
  {
    after := mid;
    if after.sagas[o].Reserved? {
      LeadsOn(s, after, SavePayment(o));
      after := Apply(after, SavePayment(o));
    }
    LeadsOn(s, after, SendPost(o));
    after := Apply(after, SendPost(o));
  }

  lemma ReapedThenCharged(s: State, opening: map<StockKey, int>, o: OrderId, k: nat) returns (bad: State)
    requires Consistent(s.tables, opening) && Expired(s, o) && o !in s.records && k !in s.tasks
    requires StillChargeable(s, o)
    ensures Leads(Selected(s, k, Reap, o), bad) && HasStatus(bad, o, Cancelled) && ChargeApproved(bad, o)
  {
    var first := Selected(s, k, Reap, o);
    bad := ReaperCancels(s, opening, o, k);
    if Wire(s, o) == 0 {
      bad := StillSends(first, bad, o);
    }
    LeadsOn(first, bad, LandPost(o, Some(Approved)));
    bad := Apply(bad, LandPost(o, Some(Approved)));
  }

  /**
   In any run at all, were the reaper to select an expired order without a recorded charge that can
   still be charged, that one selection could end with the order cancelled and charged.
   */
  lemma SelectingTooEarlyIsUnsafe(states: seq<State>, steps: seq<Step>, opening: map<StockKey, int>, i: nat, o: OrderId,
                                  k: nat)
    returns (bad: State)
    requires Run(states, steps, opening) && i < |states|
    requires Expired(states[i], o) && o !in states[i].records && k !in states[i].tasks && StillChargeable(states[i], o)
    ensures Leads(Selected(states[i], k, Reap, o), bad) && HasStatus(bad, o, Cancelled) && ChargeApproved(bad, o)
  {
    RunIsConsistent(states, steps, opening, i);
    bad := ReapedThenCharged(states[i], opening, o, k);
  }

  // ---------- either job too early for the second save ----------

  /** A saga that may overwrite the payment row gets its charge approved first. */
  lemma ApprovedFirst(s: State, o: OrderId) returns (after: State)
    requires o in s.tables.orders && o !in s.records && MayOverwrite(Lookup(s.sagas, o)) && StillChargeable(s, o)
    ensures Leads(s, after) && ChargeApproved(after, o) && after.tables == s.tables && after.tasks == s.tasks
    ensures MayOverwrite(Lookup(after.sagas, o))
  {
    LeadsNowhere(s);
    after := s;
    if Wire(s, o) == 0 {
      after := StillSends(s, s, o);
    }
    LeadsOn(s, after, LandPost(o, Some(Approved)));
    after := Apply(after, LandPost(o, Some(Approved)));
  }

  /** A confirming task on a pending order, resolved. */
  lemma ConfirmResolves(s: State, opening: map<StockKey, int>, k: nat)
    requires Consistent(s.tables, opening) && k in s.tasks && Decide(s.tasks[k]) == Resolve(Some(Captured), Confirm)
    requires HasStatus(s, s.tasks[k].order, PendingPayment)
    ensures var after := Apply(s, ResolveTask(k));
            && HasStatus(after, s.tasks[k].order, Confirmed)
            && after.records == s.records && after.sagas == s.sagas
            && after.tables.payments.Keys == s.tables.payments.Keys
  {
    SettlementWins(s.tables, opening, s.tasks[k].order, Some(Captured), Confirm, s.now);
  }

  /** Asked about an approved charge, a fresh task decides to confirm. */
  lemma AskingDecides(mid: State, o: OrderId, k: nat)
    requires ChargeApproved(mid, o) && HasStatus(mid, o, PendingPayment)
    requires k in mid.tasks && mid.tasks[k].order == o && mid.tasks[k].sawPayment && mid.tasks[k].answer.None?
    ensures Fine(mid, QueryStatus(k, Captured))
    ensures var asked := Apply(mid, QueryStatus(k, Captured));
            && k in asked.tasks && asked.tasks[k].order == o && Fine(asked, ResolveTask(k))
            && Decide(asked.tasks[k]) == Resolve(Some(Captured), Confirm)
            && asked == mid.(tasks := asked.tasks)
  {
  }

  /** The job learns of the charge and confirms. */
  lemma JobConfirms(s: State, mid: State, opening: map<StockKey, int>, o: OrderId, k: nat) returns (after: State)
    requires Leads(s, mid) && Consistent(mid.tables, opening) && HasStatus(mid, o, PendingPayment)
             && ChargeApproved(mid, o)
    requires k in mid.tasks && mid.tasks[k].order == o && mid.tasks[k].sawPayment && mid.tasks[k].answer.None?
    requires o in mid.tables.payments
    ensures Leads(s, after) && HasStatus(after, o, Confirmed) && after.sagas == mid.sagas
            && after.records == mid.records
    ensures o in after.tables.payments
  {
    AskingDecides(mid, o, k);
    LeadsOn(s, mid, QueryStatus(k, Captured));
    var asked := Apply(mid, QueryStatus(k, Captured));
    ConfirmResolves(asked, opening, k);
    LeadsOn(s, asked, ResolveTask(k));
    after := Apply(asked, ResolveTask(k));
  }

  /** The saga's charge comes back unknown, and the second save says so over whatever the job wrote. */
  lemma SagaOverwrites(s: State, mid: State, o: OrderId) returns (after: State)
    requires Leads(s, mid) && MayOverwrite(Lookup(mid.sagas, o)) && o in mid.tables.payments
    ensures Leads(s, after) && after.tables.orders == mid.tables.orders && after.records == mid.records
    ensures o in after.tables.payments && after.tables.payments[o].status == Unknown
  {
    after := mid;
    if after.sagas[o].Charging? {
      LeadsOn(s, after, ChargeReturns(o, Unknown));
      after := Apply(after, ChargeReturns(o, Unknown));
    }
    LeadsOn(s, after, SaveResult(o));
    after := Apply(after, SaveResult(o));
  }

  lemma ConfirmedThenOverwritten(s: State, opening: map<StockKey, int>, kind: JobKind, o: OrderId, k: nat)
    returns (bad: State)
    requires RunConsistent(s, opening) && Selectable(s, kind, o) && k !in s.tasks && HasStatus(s, o, PendingPayment)
    requires MayOverwrite(Lookup(s.sagas, o)) && (ChargeApproved(s, o) || (o !in s.records && StillChargeable(s, o)))
    ensures Leads(Selected(s, k, kind, o), bad) && HasStatus(bad, o, Confirmed)
    ensures o in bad.tables.payments && bad.tables.payments[o].status == Unknown
  {
    assert SagaFits(s, o);
    var first := Selected(s, k, kind, o);
    LeadsNowhere(first);
    bad := first;
    if o !in s.records {
      bad := ApprovedFirst(first, o);
    }
    bad := JobConfirms(first, bad, opening, o, k);
    bad := SagaOverwrites(first, bad, o);
  }

  /**
   In any run at all, were reconciliation to select a pending order whose saga is still charging, and
   whose charge is or may yet be approved, that one selection could end with the order confirmed over a
   payment row that says UNKNOWN.
   */
  lemma ReconcilingTooEarlyIsUnsafe(states: seq<State>, steps: seq<Step>, opening: map<StockKey, int>, i: nat,
                                    o: OrderId, k: nat)
    returns (bad: State)
    requires Run(states, steps, opening) && i < |states| && k !in states[i].tasks
    requires Unsettled(states[i], o) && HasStatus(states[i], o, PendingPayment)
             && MayOverwrite(Lookup(states[i].sagas, o))
    requires ChargeApproved(states[i], o) || (o !in states[i].records && StillChargeable(states[i], o))
    ensures Leads(Selected(states[i], k, Reconcile, o), bad) && HasStatus(bad, o, Confirmed)
    ensures o in bad.tables.payments && bad.tables.payments[o].status == Unknown
  {
    RunIsConsistent(states, steps, opening, i);
    bad := ConfirmedThenOverwritten(states[i], opening, Reconcile, o, k);
  }

  // ---------- runs that come to such a selection ----------

  const SHELF := StockKey(0, 0)
  const ONE_LINE := [OrderLine(0, 1)]
  const CART := Cart(0, 100, ONE_LINE)
  const OPENING := map[SHELF := 1]
  const EMPTY_TABLES := Tables(map[], map[], map[], Books(map[SHELF := Balance(1, 0)], []), multiset{})
  const START := State(EMPTY_TABLES, map[], map[], map[], map[], 0)

  lemma OneLineFits()
    ensures ReserveTx(EMPTY_TABLES, CommandFor(CART, 0, 0), false, 0).Ok?
    ensures var t := ReserveTx(EMPTY_TABLES, CommandFor(CART, 0, 0), false, 0).value;
            && t.orders.Keys == {0} && t.orders[0].status == PendingPayment
            && t.orders[0].expiresAt == Some(RESERVATION_TTL_MS) && t.payments == map[]
  {
    assert Products(ONE_LINE) == [0] && ONE_LINE[1..] == [];
    assert Unmet(EMPTY_TABLES.books.stock, 0, ONE_LINE) == [];
    assert ReserveLines(EMPTY_TABLES.books, 0, 0, ONE_LINE).Ok?;
  }

  /** One order for the one article on the shelf, reserved. */
  lemma FirstReservation() returns (states: seq<State>, steps: seq<Step>)
    ensures Run(states, steps, OPENING) && Assumed(states, steps) && |states| == 3
    ensures var s := states[2];
            && s.sagas == map[0 := Reserved] && s.records == map[] && s.wire == map[] && s.tasks == map[] && s.now == 0
            && HasStatus(s, 0, PendingPayment) && s.tables.orders[0].expiresAt == Some(RESERVATION_TTL_MS)
            && s.tables.payments == map[]
  {
    var started := Apply(START, StartSaga(0, CART, [0]));
    OneLineFits();
    var reserved := Apply(started, TryReserve(0, false));
    states, steps := [START, started, reserved], [StartSaga(0, CART, [0]), TryReserve(0, false)];
    assert Distinct(ONE_LINE);
  }

  lemma OneMoreStep(states: seq<State>, steps: seq<Step>, step: Step) returns (longer: seq<State>, more: seq<Step>)
    requires Run(states, steps, OPENING) && Assumed(states, steps) && Fine(states[|steps|], step)
    ensures Run(longer, more, OPENING) && Assumed(longer, more)
    ensures |longer| == |states| + 1 && longer[|states|] == Apply(states[|steps|], step)
  {
    longer, more := states + [Apply(states[|steps|], step)], steps + [step];
  }

  /** A saga that stalls between reserving and charging past the reservation's time meets the premise for the reaper. */
  lemma ReaperCanComeTooEarly() returns (states: seq<State>, steps: seq<Step>)
    ensures Run(states, steps, OPENING) && Assumed(states, steps)
    ensures var s := states[|steps|]; Expired(s, 0) && 0 !in s.records && s.tasks == map[] && StillChargeable(s, 0)
  {
    states, steps := FirstReservation();
    states, steps := OneMoreStep(states, steps, Tick(RESERVATION_TTL_MS + 1));
  }

  /** A charge that lands but does not return within the grace period meets it for reconciliation. */
  lemma ReconciliationCanComeTooEarly() returns (states: seq<State>, steps: seq<Step>)
    ensures Run(states, steps, OPENING) && Assumed(states, steps)
    ensures var s := states[|steps|];
            && Unsettled(s, 0) && HasStatus(s, 0, PendingPayment) && ChargeApproved(s, 0) && s.tasks == map[]
            && MayOverwrite(Lookup(s.sagas, 0))
  {
    states, steps := FirstReservation();
    states, steps := OneMoreStep(states, steps, SavePayment(0));
    states, steps := OneMoreStep(states, steps, SendPost(0));
    states, steps := OneMoreStep(states, steps, LandPost(0, Some(Approved)));
    states, steps := OneMoreStep(states, steps, Tick(RECONCILIATION_GRACE_MS + 1));
  }

  // ---------- exactly the safe selections ----------

  lemma {:induction false} ExecKeepsInv(s: State, opening: map<StockKey, int>, steps: seq<Step>)
    requires Inv(s, opening) && Exec(s, steps).Some?
    ensures Inv(Exec(s, steps).value, opening)
    decreases |steps|
  {
    if steps != [] {
      StepKeepsInv(s, opening, steps[0]);
      ExecKeepsInv(Apply(s, steps[0]), opening, steps[1..]);
    }
  }

  lemma TruthfulIsNotBroken(s: State, opening: map<StockKey, int>, o: OrderId)
    requires Inv(s, opening)
    ensures !Broken(s, o)
  {
    assert Truthful(ViewOf(s, o));
  }

  /** A safe selection breaks nothing, however things go on. */
  lemma SafeBreaksNothing(s: State, opening: map<StockKey, int>, kind: JobKind, o: OrderId, k: nat, bad: State,
                          q: OrderId)
    requires Inv(s, opening) && Enabled(s, SelectOrder(k, kind, o)) && Safe(kind, ViewOf(s, o))
    requires Leads(Selected(s, k, kind, o), bad)
    ensures !Broken(bad, q)
  {
    StepKeepsInv(s, opening, SelectOrder(k, kind, o));
    var steps :| Exec(Selected(s, k, kind, o), steps) == Some(bad);
    ExecKeepsInv(Selected(s, k, kind, o), opening, steps);
    TruthfulIsNotBroken(bad, opening, q);
  }

  lemma UnsafeBreaksSomething(s: State, opening: map<StockKey, int>, kind: JobKind, o: OrderId, k: nat)
    returns (bad: State)
    requires Inv(s, opening) && Enabled(s, SelectOrder(k, kind, o)) && !Safe(kind, ViewOf(s, o))
    ensures Leads(Selected(s, k, kind, o), bad) && Broken(bad, o)
  {
    assert Truthful(ViewOf(s, o)) && SagaFits(s, o);
    if kind == Reap && o !in s.records {
      bad := ReapedThenCharged(s, opening, o, k);
    } else {
      bad := ConfirmedThenOverwritten(s, opening, kind, o, k);
    }
  }

  /**
   In a run whose selections have been safe so far, the next one can lead to a broken promise if and
   only if it is not safe: by the job's kind, the saga's phase, the requests under way and the record.
   */
  lemma SafeIffNothingBreaks(states: seq<State>, steps: seq<Step>, opening: map<StockKey, int>, i: nat,
                             kind: JobKind, o: OrderId, k: nat)
    requires Run(states, steps, opening) && Assumed(states, steps) && i < |states|
    requires Enabled(states[i], SelectOrder(k, kind, o))
    ensures Safe(kind, ViewOf(states[i], o)) <==>
            !exists bad, q :: Leads(Selected(states[i], k, kind, o), bad) && Broken(bad, q)
  {
    RunInv(states, steps, opening, i);
    if Safe(kind, ViewOf(states[i], o)) {
      forall bad, q | Leads(Selected(states[i], k, kind, o), bad)
        ensures !Broken(bad, q)
      {
        SafeBreaksNothing(states[i], opening, kind, o, k, bad, q);
      }
    } else {
      var bad := UnsafeBreaksSomething(states[i], opening, kind, o, k);
      assert Leads(Selected(states[i], k, kind, o), bad) && Broken(bad, o);
    }
  }

  // ---------- the provider that forgets ----------

  /** In any run, a restart of the provider lets the reaper release stock that was paid for. */
  lemma ForgettingIsUnsafe(states: seq<State>, steps: seq<Step>, opening: map<StockKey, int>, i: nat, o: OrderId,
                           k: nat)
    returns (bad: State)
    requires Run(states, steps, opening) && i < |states|
    requires Expired(states[i], o) && ChargeApproved(states[i], o) && k !in states[i].tasks
    ensures Leads(Selected(Apply(states[i], ProviderRestart), k, Reap, o), bad) && HasStatus(bad, o, Cancelled)
  {
    RunIsConsistent(states, steps, opening, i);
    bad := ReaperCancels(Apply(states[i], ProviderRestart), opening, o, k);
  }

  /** Some continuation, its selections safe and its provider keeping what it has, cancels the order. */
  ghost predicate CanEndCancelled(s: State, o: OrderId) {
    exists bad :: Leads(s, bad) && HasStatus(bad, o, Cancelled)
  }

  /** The order's saga is over and its requests are gone; tables, tasks and records are as they were. */
  predicate Abandoned(s: State, after: State, o: OrderId) {
    && after.tables == s.tables && after.tasks == s.tasks && after.records == s.records
    && o in after.sagas && (after.sagas[o].Crashed? || after.sagas[o].Finished?)
  }

  lemma SagaGivesUp(s: State, o: OrderId) returns (after: State)
    requires o in s.sagas
    ensures Leads(s, after) && Abandoned(s, after, o)
  {
    LeadsNowhere(s);
    after := s;
    if !s.sagas[o].Finished? {
      LeadsOn(s, s, CrashSaga(o));
      after := Apply(s, CrashSaga(o));
    }
  }

  lemma {:induction false} RequestsGetLost(s: State, mid: State, o: OrderId) returns (after: State)
    requires Leads(s, mid) && Abandoned(s, mid, o)
    ensures Leads(s, after) && Abandoned(s, after, o) && Wire(after, o) == 0
    decreases Wire(mid, o)
  {
    after := mid;
    if Wire(mid, o) > 0 {
      LeadsOn(s, mid, LosePost(o));
      after := RequestsGetLost(s, Apply(mid, LosePost(o)), o);
    }
  }

  lemma TimePasses(s: State, mid: State, o: OrderId) returns (after: State)
    requires Leads(s, mid) && Abandoned(s, mid, o) && Wire(mid, o) == 0
    requires HasStatus(s, o, PendingPayment) && s.tables.orders[o].expiresAt.Some?
    ensures Leads(s, after) && Abandoned(s, after, o) && Wire(after, o) == 0 && Expired(after, o)
  {
    after := mid;
    if !Expired(mid, o) {
      var step := Tick(s.tables.orders[o].expiresAt.value - mid.now + 1);
      LeadsOn(s, mid, step);
      after := Apply(mid, step);
    }
  }

  lemma {:induction false} FreshTask(used: set<nat>) returns (k: nat)
    ensures forall j | j in used :: j < k
    decreases used
  {
    k := 0;
    if used != {} {
      var j :| j in used;
      var above := FreshTask(used - {j});
      k := if above <= j then j + 1 else above;
      assert forall i | i in used :: i == j || i in used - {j};
    }
  }

  /** With no charge on record, a pending order can be given up by its saga and cancelled by the reaper. */
  lemma PendingCanEndCancelled(s: State, opening: map<StockKey, int>, o: OrderId)
    requires RunConsistent(s, opening) && HasStatus(s, o, PendingPayment) && o !in s.records
    ensures CanEndCancelled(s, o)
  {
    assert OrderAgrees(s.tables, o);
    var mid := SagaGivesUp(s, o);
    mid := RequestsGetLost(s, mid, o);
    mid := TimePasses(s, mid, o);
    var k := FreshTask(mid.tasks.Keys);
    LeadsOn(s, mid, SelectOrder(k, Reap, o));
    var bad := ReaperCancels(mid, opening, o, k);
    LeadsFar(s, Selected(mid, k, Reap, o), bad);
  }

  lemma {:induction false} ExecKeepsSettled(s: State, opening: map<StockKey, int>, steps: seq<Step>, o: OrderId)
    requires RunConsistent(s, opening) && IsSettled(s, o) && Exec(s, steps).Some?
    ensures SameOrder(s.tables, Exec(s, steps).value.tables, o)
    decreases |steps|
  {
    if steps != [] {
      var next := Apply(s, steps[0]);
      StepKeepsRunConsistent(s, opening, steps[0]);
      StepKeepsSettled(s, opening, steps[0], o);
      ExecKeepsSettled(next, opening, steps[1..], o);
    }
  }

  /** Of an order with no charge on record, it is pending or cancelled already. */
  lemma CanEndCancelledIff(s: State, opening: map<StockKey, int>, o: OrderId)
    requires RunConsistent(s, opening) && o in s.tables.orders && o !in s.records
    ensures CanEndCancelled(s, o) <==> HasStatus(s, o, PendingPayment) || HasStatus(s, o, Cancelled)
  {
    if HasStatus(s, o, PendingPayment) {
      PendingCanEndCancelled(s, opening, o);
    } else if HasStatus(s, o, Cancelled) {
      LeadsNowhere(s);
    } else {
      forall bad | Leads(s, bad)
        ensures !HasStatus(bad, o, Cancelled)
      {
        var steps :| Exec(s, steps) == Some(bad);
        ExecKeepsSettled(s, opening, steps, o);
      }
    }
  }

  /**
   Where selections have been safe and nothing was forgotten so far, a restart of the provider lets a paid
   order be cancelled if and only if the order is still pending at that moment, expired or not.
   */
  lemma ForgettingCancelsIff(states: seq<State>, steps: seq<Step>, opening: map<StockKey, int>, i: nat, o: OrderId)
    requires Run(states, steps, opening) && Assumed(states, steps) && i < |states|
    requires ChargeApproved(states[i], o)
    ensures CanEndCancelled(Apply(states[i], ProviderRestart), o) <==> HasStatus(states[i], o, PendingPayment)
  {
    RunInv(states, steps, opening, i);
    assert Truthful(ViewOf(states[i], o));
    StepKeepsRunConsistent(states[i], opening, ProviderRestart);
    CanEndCancelledIff(Apply(states[i], ProviderRestart), opening, o);
  }

  /** A run comes to such a moment: the one order is paid, its saga not done, its reservation over. */
  lemma PaidOrderCanBeForgotten() returns (states: seq<State>, steps: seq<Step>)
    ensures Run(states, steps, OPENING) && Assumed(states, steps)
    ensures var s := states[|steps|];
            && Expired(s, 0) && ChargeApproved(s, 0) && s.tasks == map[]
            && CanEndCancelled(Apply(s, ProviderRestart), 0)
  {
    states, steps := FirstReservation();
    states, steps := OneMoreStep(states, steps, SavePayment(0));
    states, steps := OneMoreStep(states, steps, SendPost(0));
    states, steps := OneMoreStep(states, steps, LandPost(0, Some(Approved)));
    states, steps := OneMoreStep(states, steps, Tick(RESERVATION_TTL_MS + 1));
    ForgettingCancelsIff(states, steps, OPENING, |steps|, 0);
  }
}
