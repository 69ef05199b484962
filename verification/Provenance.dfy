/**
 Where rows come from and what they keep, in every run: an order is what its client asked for, a payment
 is for its order's total, and a payment is found by reconciliation exactly as long as its outcome is open.
 */
module Provenance {
  import opened Wrappers
  import opened Books
  import opened Orders
  import opened Tables
  import opened Protocol
  import opened Consistency
  import opened TransactionEffects

  // ---------- open and settled payments ----------

  /** A payment row is stamped as settled exactly if its outcome is final. */
  predicate StampedRight(row: PaymentRow) {
    && row.status in {Pending, Unknown, Captured, Declined, Failed}
    && (row.settledAt.Some? <==> row.status in {Captured, Declined, Failed})
  }

  predicate PhaseKnows(phase: Phase) {
    && (phase.Answered? ==> phase.status in {Unknown, Captured, Declined})
    && (phase.Settling? ==> phase.status in {Captured, Declined})
  }

  ghost predicate OutcomesKnown(s: State) {
    && (forall o | o in s.tables.payments :: StampedRight(s.tables.payments[o]))
    && (forall o | o in s.sagas :: PhaseKnows(s.sagas[o]))
  }

  /** A settlement writes a final outcome into the payment row, or leaves it as it is. */
  lemma SettlingStampsRight(t: Tables, o: OrderId, answer: Option<PaymentStatus>, action: Action, now: int)
    requires forall q | q in t.payments :: StampedRight(t.payments[q])
    requires answer.Some? ==> answer.value in {Captured, Declined, Failed}
    ensures var after := AfterSettle(t, o, answer, action, now);
            forall q | q in after.payments :: StampedRight(after.payments[q])
  {
    if SettleTx(t, o, answer, action, now).Ok? {
      SettleWrites(t, o, answer, action, now);
      PaymentIsTaken(t.payments, o, answer, now);
    }
  }

  lemma SettlementKeepsOutcomes(s: State, step: Step)
    requires OutcomesKnown(s) && Enabled(s, step) && (step.SettleSaga? || step.ResolveTask?)
    ensures OutcomesKnown(Apply(s, step))
  {
    if step.SettleSaga? {
      SettlingStampsRight(s.tables, step.order, None, PhaseThree(s.sagas[step.order].status).0, s.now);
    } else {
      var task := s.tasks[step.task];
      SettlingStampsRight(s.tables, task.order, Decide(task).payment, Decide(task).action, s.now);
    }
  }

  lemma ReserveKeepsOutcomes(s: State, o: OrderId, lockTimeout: bool)
    requires OutcomesKnown(s) && Enabled(s, TryReserve(o, lockTimeout))
    ensures OutcomesKnown(AfterAttempt(s, o, lockTimeout))
  {
    var cmd := CommandFor(s.sagas[o].cart, o, s.sagas[o].rest[0]);
    if ReserveTx(s.tables, cmd, lockTimeout, s.now).Ok? {
      ReserveKeys(s.tables, cmd, lockTimeout, s.now);
    }
  }

  lemma StepKeepsOutcomes(s: State, step: Step)
    requires OutcomesKnown(s) && Enabled(s, step)
    ensures OutcomesKnown(Apply(s, step))
  {
    if step.SettleSaga? || step.ResolveTask? {
      SettlementKeepsOutcomes(s, step);
    } else if step.TryReserve? {
      ReserveKeepsOutcomes(s, step.order, step.lockTimeout);
    } else if step.SaveResult? {
      assert PhaseKnows(s.sagas[step.order]);
    }
  }

  lemma {:induction false} RunKnowsOutcomes(states: seq<State>, steps: seq<Step>, opening: map<StockKey, int>, i: nat)
    requires Run(states, steps, opening) && i < |states|
    ensures OutcomesKnown(states[i])
  {
    if i > 0 {
      RunKnowsOutcomes(states, steps, opening, i - 1);
      StepKeepsOutcomes(states[i - 1], steps[i - 1]);
    }
  }

  /** In every state of every run a payment has a settlement time exactly if it is captured, declined or failed. */
  lemma SettledIffFinal(states: seq<State>, steps: seq<Step>, opening: map<StockKey, int>, i: nat, o: OrderId)
    requires Run(states, steps, opening) && i < |states| && o in states[i].tables.payments
    ensures var row := states[i].tables.payments[o];
            && (row.settledAt.Some? <==> row.status == Captured || row.status == Declined || row.status == Failed)
            && (row.settledAt.None? <==> row.status == Pending || row.status == Unknown)
  {
    RunKnowsOutcomes(states, steps, opening, i);
    assert StampedRight(states[i].tables.payments[o]);
  }

  /** Reconciliation may pick up an order exactly if its payment is open and older than two minutes. */
  lemma ReconciledIffOpen(states: seq<State>, steps: seq<Step>, opening: map<StockKey, int>, i: nat, o: OrderId, k: nat)
    requires Run(states, steps, opening) && i < |states| && k !in states[i].tasks
    ensures Enabled(states[i], SelectOrder(k, Reconcile, o)) <==>
            && o in states[i].tables.payments
            && (states[i].tables.payments[o].status == Pending || states[i].tables.payments[o].status == Unknown)
            && states[i].tables.payments[o].createdAt + 120_000 < states[i].now
  {
    RunKnowsOutcomes(states, steps, opening, i);
    if o in states[i].tables.payments {
      assert StampedRight(states[i].tables.payments[o]);
    }
  }

  /** The reaper may pick up an order exactly if it is pending and its reservation is over. */
  lemma ReapedIffOver(states: seq<State>, steps: seq<Step>, opening: map<StockKey, int>, i: nat, o: OrderId, k: nat)
    requires Run(states, steps, opening) && i < |states| && k !in states[i].tasks
    ensures o in states[i].tables.orders ==> states[i].tables.orders[o].expiresAt.Some?
    ensures Enabled(states[i], SelectOrder(k, Reap, o)) <==>
            && o in states[i].tables.orders && states[i].tables.orders[o].status == PendingPayment
            && states[i].tables.orders[o].expiresAt.value < states[i].now
  {
    RunIsConsistent(states, steps, opening, i);
    if o in states[i].tables.orders {
      assert OrderAgrees(states[i].tables, o);
    }
  }

  // ---------- what rows keep ----------

  /** What no step changes about an order. */
  predicate SameTerms(a: OrderRow, b: OrderRow) {
    && a.customer == b.customer && a.totalCents == b.totalCents
    && a.warehouse == b.warehouse && a.expiresAt == b.expiresAt
  }

  predicate KeepsTerms(before: Tables, after: Tables, o: OrderId) {
    && (o in before.orders ==> o in after.orders && SameTerms(before.orders[o], after.orders[o]))
    && (o in before.items ==> o in after.items && after.items[o] == before.items[o])
    && (o in before.payments ==>
          && o in after.payments
          && after.payments[o].amountCents == before.payments[o].amountCents
          && after.payments[o].createdAt == before.payments[o].createdAt)
  }

  lemma SettlingKeepsTerms(t: Tables, q: OrderId, answer: Option<PaymentStatus>, action: Action, now: int, o: OrderId)
    ensures var after := AfterSettle(t, q, answer, action, now);
            && KeepsTerms(t, after, o)
            && after.orders.Keys == t.orders.Keys && after.items == t.items && after.payments.Keys == t.payments.Keys
  {
  }

  /** The order is what that cart asked for, at that warehouse, set aside for fifteen minutes. */
  predicate AsAsked(t: Tables, o: OrderId, cart: Cart, w: WarehouseId, reservedAt: int) {
    && o in t.orders && o in t.items && t.items[o] == cart.lines
    && t.orders[o].customer == cart.customer && t.orders[o].totalCents == cart.totalCents
    && t.orders[o].warehouse == Some(w) && t.orders[o].expiresAt == Some(reservedAt + 900_000)
  }

  /** The steps that write orders, items or payments. */
  predicate Writes(step: Step) {
    step.TryReserve? || step.SavePayment? || step.SaveResult? || step.SettleSaga? || step.ResolveTask?
  }

  lemma OtherStepsWriteNothing(s: State, step: Step)
    requires Enabled(s, step) && !Writes(step)
    ensures Apply(s, step).tables == s.tables
  {
  }

  /** A reservation adds its order and lines, and changes no row there is. */
  lemma ReservingAdds(s: State, q: OrderId, lockTimeout: bool)
    requires Enabled(s, TryReserve(q, lockTimeout)) && CartsValid(s)
    ensures var t, after, saga := s.tables, AfterAttempt(s, q, lockTimeout).tables, s.sagas[q];
            || after == t
            || (&& q !in t.orders && after.orders.Keys == t.orders.Keys + {q} && after.payments == t.payments
                && (forall o | o in t.orders :: after.orders[o] == t.orders[o])
                && (forall o | o in t.items && o != q :: o in after.items && after.items[o] == t.items[o])
                && AsAsked(after, q, saga.cart, saga.rest[0], s.now))
  {
    var cmd := CommandFor(s.sagas[q].cart, q, s.sagas[q].rest[0]);
    if ReserveTx(s.tables, cmd, lockTimeout, s.now).Ok? {
      ReserveKeys(s.tables, cmd, lockTimeout, s.now);
      ReservationWrites(s.tables, cmd, lockTimeout, s.now);
    }
  }

  lemma SettlementStepsKeepTerms(s: State, step: Step, o: OrderId)
    requires Enabled(s, step) && (step.SettleSaga? || step.ResolveTask?)
    ensures var t, after := s.tables, Apply(s, step).tables;
            && KeepsTerms(t, after, o)
            && after.orders.Keys == t.orders.Keys && after.items == t.items && after.payments.Keys == t.payments.Keys
  {
    if step.SettleSaga? {
      SettlingKeepsTerms(s.tables, step.order, None, PhaseThree(s.sagas[step.order].status).0, s.now, o);
    } else {
      var task := s.tasks[step.task];
      SettlingKeepsTerms(s.tables, task.order, Decide(task).payment, Decide(task).action, s.now, o);
    }
  }

  lemma SavesKeepTerms(s: State, step: Step, o: OrderId)
    requires ActorsFit(s) && Enabled(s, step) && (step.SavePayment? || step.SaveResult?)
    ensures var t, after := s.tables, Apply(s, step).tables;
            KeepsTerms(t, after, o) && after.orders == t.orders && after.items == t.items
  {
    assert SagaFits(s, step.order);
  }

  lemma StepKeepsTerms(s: State, opening: map<StockKey, int>, step: Step, o: OrderId)
    requires RunConsistent(s, opening) && Enabled(s, step)
    ensures KeepsTerms(s.tables, Apply(s, step).tables, o)
  {
    if !Writes(step) {
      OtherStepsWriteNothing(s, step);
    } else if step.TryReserve? {
      ReservingAdds(s, step.order, step.lockTimeout);
    } else if step.SettleSaga? || step.ResolveTask? {
      SettlementStepsKeepTerms(s, step, o);
    } else {
      SavesKeepTerms(s, step, o);
    }
  }

  predicate KeptNext(states: seq<State>, n: nat, o: OrderId) {
    n + 1 < |states| ==> KeepsTerms(states[n].tables, states[n + 1].tables, o)
  }

  lemma RunKeepsNext(states: seq<State>, steps: seq<Step>, opening: map<StockKey, int>, n: nat, o: OrderId)
    requires Run(states, steps, opening)
    ensures KeptNext(states, n, o)
  {
    if n < |steps| {
      RunIsConsistent(states, steps, opening, n);
      StepKeepsTerms(states[n], opening, steps[n], o);
    }
  }

  lemma KeptFurther(a: Tables, b: Tables, c: Tables, o: OrderId)
    requires KeepsTerms(a, b, o) && KeepsTerms(b, c, o)
    ensures KeepsTerms(a, c, o)
  {
  }

  lemma {:induction false} KeptThroughout(states: seq<State>, i: nat, j: nat, o: OrderId)
    requires i <= j < |states| && forall n: nat | i <= n < j :: KeptNext(states, n, o)
    ensures KeepsTerms(states[i].tables, states[j].tables, o)
  {
    if i < j {
      KeptThroughout(states, i, j - 1, o);
      assert KeptNext(states, j - 1, o);
      KeptFurther(states[i].tables, states[j - 1].tables, states[j].tables, o);
    }
  }

  /** An order's terms and lines, and its payment's amount and age, never change. */
  lemma TermsAreKept(states: seq<State>, steps: seq<Step>, opening: map<StockKey, int>, i: nat, j: nat, o: OrderId)
    requires Run(states, steps, opening) && i <= j < |states|
    ensures KeepsTerms(states[i].tables, states[j].tables, o)
  {
    forall n: nat | i <= n < j
      ensures KeptNext(states, n, o)
    {
      RunKeepsNext(states, steps, opening, n, o);
    }
    KeptThroughout(states, i, j, o);
  }

  // ---------- where an order comes from ----------

  /** The saga was started with this cart, and the warehouses it has left to try were among its candidates. */
  ghost predicate StartedAs(steps: seq<Step>, n: nat, o: OrderId, cart: Cart, rest: seq<WarehouseId>) {
    exists a :: 0 <= a < n && a < |steps| && IsStart(steps[a], o, cart, rest)
  }

  predicate IsStart(step: Step, o: OrderId, cart: Cart, rest: seq<WarehouseId>) {
    step.StartSaga? && step.order == o && step.cart == cart && forall w | w in rest :: w in step.candidates
  }

  lemma {:induction false} ReservingComesFrom(states: seq<State>, steps: seq<Step>, opening: map<StockKey, int>,
                                              i: nat, o: OrderId)
    requires Run(states, steps, opening) && i < |states| && o in states[i].sagas && states[i].sagas[o].Reserving?
    ensures StartedAs(steps, i, o, states[i].sagas[o].cart, states[i].sagas[o].rest)
  {
    var s, step := states[i - 1], steps[i - 1];
    if step.StartSaga? && step.order == o {
      assert IsStart(steps[i - 1], o, states[i].sagas[o].cart, states[i].sagas[o].rest);
    } else {
      StillReserving(s, step, o);
      ReservingComesFrom(states, steps, opening, i - 1, o);
      var a :| 0 <= a < i - 1 && a < |steps| && IsStart(steps[a], o, s.sagas[o].cart, s.sagas[o].rest);
      assert IsStart(steps[a], o, states[i].sagas[o].cart, states[i].sagas[o].rest);
    }
  }

  lemma StillReserving(s: State, step: Step, o: OrderId)
    requires Enabled(s, step) && !(step.StartSaga? && step.order == o)
    requires o in Apply(s, step).sagas && Apply(s, step).sagas[o].Reserving?
    ensures o in s.sagas && s.sagas[o].Reserving?
    ensures Apply(s, step).sagas[o].cart == s.sagas[o].cart
    ensures forall w | w in Apply(s, step).sagas[o].rest :: w in s.sagas[o].rest
  {
  }

  /** Every order is what its client asked for, reserved at one of its candidates, in every state of every run. */
  lemma {:induction false} OrderIsAsAsked(states: seq<State>, steps: seq<Step>, opening: map<StockKey, int>,
                                          i: nat, o: OrderId) returns (start: nat, reserve: nat, w: WarehouseId)
    requires Run(states, steps, opening) && i < |states| && o in states[i].tables.orders
    ensures start < reserve < i && steps[start].StartSaga? && steps[start].order == o && w in steps[start].candidates
    ensures steps[reserve].TryReserve? && steps[reserve].order == o
    ensures AsAsked(states[i].tables, o, steps[start].cart, w, states[reserve].now)
  {
    RunIsConsistent(states, steps, opening, i);
    RunIsConsistent(states, steps, opening, i - 1);
    if o in states[i - 1].tables.orders {
      start, reserve, w := OrderIsAsAsked(states, steps, opening, i - 1, o);
      StepKeepsTerms(states[i - 1], opening, steps[i - 1], o);
    } else {
      NewOrderIsReserved(states[i - 1], steps[i - 1], o);
      reserve, w := i - 1, states[i - 1].sagas[o].rest[0];
      ReservingComesFrom(states, steps, opening, i - 1, o);
      var cart, rest := states[i - 1].sagas[o].cart, states[i - 1].sagas[o].rest;
      start :| 0 <= start < i - 1 && start < |steps| && IsStart(steps[start], o, cart, rest);
    }
  }

  lemma NewOrderIsReserved(s: State, step: Step, o: OrderId)
    requires ActorsFit(s) && CartsValid(s) && Enabled(s, step)
    requires o !in s.tables.orders && o in Apply(s, step).tables.orders
    ensures step.TryReserve? && step.order == o
    ensures AsAsked(Apply(s, step).tables, o, s.sagas[o].cart, s.sagas[o].rest[0], s.now)
  {
    if !Writes(step) {
      OtherStepsWriteNothing(s, step);
    } else if step.TryReserve? {
      ReservingAdds(s, step.order, step.lockTimeout);
    } else if step.SettleSaga? || step.ResolveTask? {
      SettlementStepsKeepTerms(s, step, o);
    } else {
      SavesKeepTerms(s, step, o);
    }
  }

  // ---------- one attempt at a reservation ----------

  /** Where the saga stands after its attempt was refused with these products: the next candidate, or the end. */
  predicate MovedOn(before: Phase, after: Phase, named: set<ProductId>) {
    && before.Reserving? && |before.rest| > 0
    && if |before.rest| == 1 then after == Finished(RaceLost(before.unmet + named))
       else after == Reserving(before.cart, before.rest[1..], before.unmet + named)
  }

  /** The candidate has enough of every line, and its locks come in time. */
  predicate CanServe(stock: map<StockKey, Balance>, w: WarehouseId, lines: seq<OrderLine>, lockTimeout: bool) {
    !lockTimeout && forall k | 0 <= k < |lines| ::
      StockKey(w, lines[k].product) in stock && stock[StockKey(w, lines[k].product)].available >= lines[k].quantity
  }

  /** Some line of the product is why the candidate could not. */
  predicate CannotServe(stock: map<StockKey, Balance>, w: WarehouseId, lines: seq<OrderLine>, lockTimeout: bool,
                        p: ProductId)
  {
    exists k | 0 <= k < |lines| ::
      && lines[k].product == p
      && (lockTimeout || StockKey(w, p) !in stock || stock[StockKey(w, p)].available < lines[k].quantity)
  }

  lemma RefusedNames(t: Tables, opening: map<StockKey, int>, cmd: ReserveCommand, lockTimeout: bool, now: int)
    requires Consistent(t, opening) && ValidLines(cmd.lines) && cmd.order !in t.orders
    requires ReserveTx(t, cmd, lockTimeout, now).Err?
    ensures ReserveTx(t, cmd, lockTimeout, now).error.InsufficientStock?
    ensures forall p :: p in ReserveTx(t, cmd, lockTimeout, now).error.products <==>
              CannotServe(t.books.stock, cmd.warehouse, cmd.lines, lockTimeout, p)
  {
    RefusalNames(t, opening, cmd, lockTimeout, now, 0);
    forall p
      ensures p in ReserveTx(t, cmd, lockTimeout, now).error.products <==>
              CannotServe(t.books.stock, cmd.warehouse, cmd.lines, lockTimeout, p)
    {
      RefusalNames(t, opening, cmd, lockTimeout, now, p);
    }
  }

  /**
   An attempt reserves exactly if the first candidate left has enough of everything and its locks come in
   time. Otherwise no table changes, and the products it could not serve join those of earlier attempts.
   */
  lemma AttemptMeans(s: State, opening: map<StockKey, int>, o: OrderId, lockTimeout: bool)
    returns (named: set<ProductId>)
    requires RunConsistent(s, opening) && Enabled(s, TryReserve(o, lockTimeout))
    ensures var cart, w := s.sagas[o].cart, s.sagas[o].rest[0];
            var after := Apply(s, TryReserve(o, lockTimeout));
            if CanServe(s.tables.books.stock, w, cart.lines, lockTimeout)
            then after.sagas[o] == Reserved && AsAsked(after.tables, o, cart, w, s.now)
            else after.tables == s.tables && MovedOn(s.sagas[o], after.sagas[o], named)
    ensures forall p | p in named ::
              CannotServe(s.tables.books.stock, s.sagas[o].rest[0], s.sagas[o].cart.lines, lockTimeout, p)
    ensures !CanServe(s.tables.books.stock, s.sagas[o].rest[0], s.sagas[o].cart.lines, lockTimeout) ==>
              forall p :: p in named <==>
                CannotServe(s.tables.books.stock, s.sagas[o].rest[0], s.sagas[o].cart.lines, lockTimeout, p)
  {
    assert SagaFits(s, o);
    var cmd := CommandFor(s.sagas[o].cart, o, s.sagas[o].rest[0]);
    ReservationStandsIff(s.tables, opening, cmd, lockTimeout, s.now);
    var r := ReserveTx(s.tables, cmd, lockTimeout, s.now);
    named := {};
    if r.Ok? {
      ReservationWrites(s.tables, cmd, lockTimeout, s.now);
    } else {
      RefusedNames(s.tables, opening, cmd, lockTimeout, s.now);
      named := set p | p in r.error.products;
    }
  }

  /** A saga still trying blames only products its cart asks for. */
  predicate BlamesItsCart(phase: Option<Phase>) {
    phase.Some? && phase.value.Reserving? ==> forall p | p in phase.value.unmet :: p in Products(phase.value.cart.lines)
  }

  lemma AttemptBlamesItsCart(s: State, opening: map<StockKey, int>, o: OrderId, lockTimeout: bool)
    requires RunConsistent(s, opening) && Enabled(s, TryReserve(o, lockTimeout)) && BlamesItsCart(PhaseOf(s, o))
    ensures BlamesItsCart(PhaseOf(AfterAttempt(s, o, lockTimeout), o))
  {
    var named := AttemptMeans(s, opening, o, lockTimeout);
    var lines := s.sagas[o].cart.lines;
    forall p | p in named
      ensures p in Products(lines)
    {
      var k :| 0 <= k < |lines| && lines[k].product == p;
      assert Products(lines)[k] == p;
    }
  }

  lemma OthersBlameAsBefore(s: State, step: Step, o: OrderId)
    requires Enabled(s, step) && !(step.TryReserve? && step.order == o) && BlamesItsCart(PhaseOf(s, o))
    ensures BlamesItsCart(PhaseOf(Apply(s, step), o))
  {
  }

  /** In every state of every run. */
  lemma {:induction false} SagasBlameTheirCart(states: seq<State>, steps: seq<Step>, opening: map<StockKey, int>,
                                               i: nat, o: OrderId)
    requires Run(states, steps, opening) && i < |states|
    ensures BlamesItsCart(PhaseOf(states[i], o))
  {
    if i > 0 {
      SagasBlameTheirCart(states, steps, opening, i - 1, o);
      if steps[i - 1].TryReserve? && steps[i - 1].order == o {
        RunIsConsistent(states, steps, opening, i - 1);
        AttemptBlamesItsCart(states[i - 1], opening, o, steps[i - 1].lockTimeout);
      } else {
        OthersBlameAsBefore(states[i - 1], steps[i - 1], o);
      }
    }
  }

  // ---------- where a payment comes from ----------

  /** How a step finds the payment row it leaves: there already, or saved by it. */
  predicate PaymentStep(before: Tables, after: Tables, step: Step, now: int, o: OrderId) {
    && o in after.payments && o in after.orders
    && if o in before.payments then
         && after.payments[o].amountCents == before.payments[o].amountCents
         && after.payments[o].createdAt == before.payments[o].createdAt
         && o in before.orders && after.orders[o].totalCents == before.orders[o].totalCents
       else
         step == SavePayment(o) && after.payments[o].amountCents == after.orders[o].totalCents
         && after.payments[o].createdAt == now
  }

  lemma EachPaymentStep(s: State, opening: map<StockKey, int>, step: Step, o: OrderId)
    requires RunConsistent(s, opening) && Enabled(s, step) && o in Apply(s, step).tables.payments
    ensures PaymentStep(s.tables, Apply(s, step).tables, step, s.now, o)
  {
    if o in s.tables.payments {
      StepKeepsTerms(s, opening, step, o);
    } else {
      NewPaymentIsSaved(s, opening, step, o);
    }
  }

  lemma PaymentStepAt(states: seq<State>, steps: seq<Step>, opening: map<StockKey, int>, i: nat, o: OrderId)
    requires Run(states, steps, opening) && i < |steps| && o in states[i + 1].tables.payments
    ensures PaymentStep(states[i].tables, states[i + 1].tables, steps[i], states[i].now, o)
  {
    RunIsConsistent(states, steps, opening, i);
    EachPaymentStep(states[i], opening, steps[i], o);
  }

  lemma NoPaymentYet(states: seq<State>, steps: seq<Step>, opening: map<StockKey, int>, o: OrderId)
    requires Run(states, steps, opening)
    ensures |states| == |steps| + 1 && o !in states[0].tables.payments
  {
  }

  /** Every payment is for its order's total, and as old as the saga's first save of it. */
  lemma {:induction false} PaymentIsForTheOrder(states: seq<State>, steps: seq<Step>, opening: map<StockKey, int>,
                                                i: nat, o: OrderId) returns (save: nat)
    requires Run(states, steps, opening) && i < |states| && o in states[i].tables.payments
    ensures o in states[i].tables.orders
    ensures states[i].tables.payments[o].amountCents == states[i].tables.orders[o].totalCents
    ensures save < i <= |steps| && steps[save] == SavePayment(o)
    ensures states[i].tables.payments[o].createdAt == states[save].now
  {
    NoPaymentYet(states, steps, opening, o);
    PaymentStepAt(states, steps, opening, i - 1, o);
    if o in states[i - 1].tables.payments {
      save := PaymentIsForTheOrder(states, steps, opening, i - 1, o);
    } else {
      save := i - 1;
    }
  }

  lemma NewPaymentIsSaved(s: State, opening: map<StockKey, int>, step: Step, o: OrderId)
    requires RunConsistent(s, opening) && Enabled(s, step)
    requires o !in s.tables.payments && o in Apply(s, step).tables.payments
    ensures step == SavePayment(o)
    ensures var after := Apply(s, step).tables;
            && o in after.orders && after.payments[o].amountCents == after.orders[o].totalCents
            && after.payments[o].createdAt == s.now
  {
    if !Writes(step) {
      OtherStepsWriteNothing(s, step);
    } else if step.TryReserve? {
      ReservingAdds(s, step.order, step.lockTimeout);
    } else if step.SettleSaga? || step.ResolveTask? {
      SettlementStepsKeepTerms(s, step, o);
    }
  }

  // ---------- how often a charge is sent ----------

  function PostsSent(steps: seq<Step>, o: OrderId): nat {
    if steps == [] then 0
    else PostsSent(steps[..|steps| - 1], o) + if steps[|steps| - 1] == SendPost(o) then 1 else 0
  }

  /** The count the saga keeps is that of the requests sent so far. */
  predicate CountKept(phase: Option<Phase>, sent: nat) {
    && sent <= 3
    && match phase
       case None => sent == 0
       case Some(Reserving(_, _, _)) => sent == 0
       case Some(Reserved) => sent == 0
       case Some(Charging(n)) => sent == n
       case _ => true
  }

  function PhaseOf(s: State, o: OrderId): Option<Phase> {
    if o in s.sagas then Some(s.sagas[o]) else None
  }

  lemma StepKeepsCount(s: State, step: Step, o: OrderId, sent: nat)
    requires Enabled(s, step) && CountKept(PhaseOf(s, o), sent)
    ensures CountKept(PhaseOf(Apply(s, step), o), sent + if step == SendPost(o) then 1 else 0)
  {
  }

  lemma {:induction false} CountIsKept(states: seq<State>, steps: seq<Step>, opening: map<StockKey, int>,
                                       i: nat, o: OrderId)
    requires Run(states, steps, opening) && i < |states|
    ensures CountKept(PhaseOf(states[i], o), PostsSent(steps[..i], o))
  {
    if i > 0 {
      CountIsKept(states, steps, opening, i - 1, o);
      assert steps[..i][..i - 1] == steps[..i - 1];
      StepKeepsCount(states[i - 1], steps[i - 1], o, PostsSent(steps[..i - 1], o));
    }
  }

  // ---------- from the charge to the client's answer ----------

  /** What may have become of a saga once its charge returned so; it crashed only if it was made to. */
  predicate Onwards(s: State, o: OrderId, status: PaymentStatus, since: seq<Step>) {
    o in s.sagas &&
    match s.sagas[o]
    case Answered(known) => known == status
    case Settling(known) => known == status && (status == Captured || status == Declined)
    case Finished(result) =>
      result == if status == Captured then OrderConfirmed
                else if status == Declined then PaymentDeclined
                else ProviderUnavailable
    case Crashed => CrashSaga(o) in since
    case _ => false
  }

  lemma StepGoesOnwards(s: State, step: Step, o: OrderId, status: PaymentStatus, since: seq<Step>)
    requires Enabled(s, step) && Onwards(s, o, status, since)
    ensures Onwards(Apply(s, step), o, status, since + [step])
  {
    assert CrashSaga(o) in since ==> CrashSaga(o) in since + [step];
    assert step in since + [step];
  }

  lemma ReturnIsAnswered(s: State, o: OrderId, status: PaymentStatus, since: seq<Step>)
    requires Enabled(s, ChargeReturns(o, status))
    ensures Onwards(Apply(s, ChargeReturns(o, status)), o, status, since)
  {
  }

  /** The charge decides what the client hears: captured is confirmed, declined is declined, unknown is neither. */
  lemma {:induction false} ChargeDecidesTheAnswer(states: seq<State>, steps: seq<Step>, opening: map<StockKey, int>,
                                                  i: nat, j: nat, o: OrderId, status: PaymentStatus)
    requires Run(states, steps, opening) && i < j < |states| && steps[i] == ChargeReturns(o, status)
    ensures Onwards(states[j], o, status, steps[i..j])
  {
    if i + 1 == j {
      ReturnIsAnswered(states[i], o, status, steps[i..j]);
    } else {
      ChargeDecidesTheAnswer(states, steps, opening, i, j - 1, o, status);
      StepGoesOnwards(states[j - 1], steps[j - 1], o, status, steps[i..j - 1]);
      assert steps[i..j] == steps[i..j - 1] + [steps[j - 1]];
    }
  }

  /** A task saw the payment row exactly if it was there when the order was selected; its answer was asked for since. */
  lemma {:induction false} TasksSaw(states: seq<State>, steps: seq<Step>, opening: map<StockKey, int>, j: nat, k: nat)
    returns (selected: nat, asked: nat)
    requires Run(states, steps, opening) && j < |states| && k in states[j].tasks
    ensures var task := states[j].tasks[k];
            && selected < j && steps[selected] == SelectOrder(k, task.kind, task.order)
            && task.sawPayment == (task.order in states[selected].tables.payments)
            && (task.answer.Some? ==> selected < asked < j && steps[asked] == QueryStatus(k, task.answer.value))
  {
    var step := steps[j - 1];
    selected, asked := j - 1, j - 1;
    if !(step.SelectOrder? && step.task == k) {
      TaskGoesOn(states[j - 1], step, k);
      var earlier;
      selected, earlier := TasksSaw(states, steps, opening, j - 1, k);
      if !(step.QueryStatus? && step.task == k) {
        asked := earlier;
      }
    }
  }

  lemma TaskGoesOn(s: State, step: Step, k: nat)
    requires Enabled(s, step) && k in Apply(s, step).tasks && !(step.SelectOrder? && step.task == k)
    ensures k in s.tasks
    ensures var task, next := s.tasks[k], Apply(s, step).tasks[k];
            next == if step.QueryStatus? && step.task == k then task.(answer := Some(step.answer)) else task
  {
  }

  /** No order's charge is sent more than three times in a run. */
  lemma AtMostThreePosts(states: seq<State>, steps: seq<Step>, opening: map<StockKey, int>, o: OrderId)
    requires Run(states, steps, opening)
    ensures PostsSent(steps, o) <= 3
  {
    CountIsKept(states, steps, opening, |steps|, o);
    assert steps[..|steps|] == steps;
  }
}
