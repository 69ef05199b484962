/** One Idempotency-Key means at most one saga, one order and one charge, and one answer. */
module RequestLaws {
  import opened Wrappers
  import opened Books
  import opened Orders
  import opened Tables
  import opened Fingerprint
  import Protocol
  import opened ProviderTruth
  import opened Guarantees
  import opened Requests
  import Selection

  lemma OthersStillFit(s: System, r: ReqId, phase: RequestPhase, q: ReqId)
    requires r in s.requests && q in s.requests && q != r && PhaseFits(s, q)
    ensures PhaseFits(SetPhase(s, r, phase), q)
  {
  }

  /** Moving one request on, when its new phase fits, keeps everything else. */
  lemma SetPhaseKeepsFront(s: System, r: ReqId, phase: RequestPhase, leq: Comparison)
    requires FrontInv(s, leq) && r in s.requests && PhaseFits(SetPhase(s, r, phase), r)
    requires phase.Replayed? ==>
               s.requests[r].key in s.keys
               && s.keys[s.requests[r].key].fingerprint == Canonicalize(s.requests[r].body, leq)
    ensures FrontInv(SetPhase(s, r, phase), leq)
  {
    var after := SetPhase(s, r, phase);
    forall q | q in after.requests
      ensures PhaseFits(after, q)
    {
      if q != r {
        OthersStillFit(s, r, phase, q);
      }
    }
  }

  lemma WinFits(s: System, r: ReqId, leq: Comparison, q: ReqId)
    requires At(s, r, Arrived) && s.requests[r].key !in s.keys && q in s.requests
    requires PhaseFits(s, r) && PhaseFits(s, q)
    ensures PhaseFits(Apply(s, InsertKey(r), leq), q)
  {
  }

  /** The insert that wins the key; no other row changes. */
  lemma WinKeepsFront(s: System, r: ReqId, leq: Comparison)
    requires FrontInv(s, leq) && At(s, r, Arrived) && s.requests[r].key !in s.keys
    ensures FrontInv(Apply(s, InsertKey(r), leq), leq)
  {
    var after := Apply(s, InsertKey(r), leq);
    assert PhaseFits(s, r);
    forall q | q in after.requests
      ensures PhaseFits(after, q)
    {
      assert PhaseFits(s, q);
      WinFits(s, r, leq, q);
    }
  }

  lemma InsertKeepsFront(s: System, r: ReqId, leq: Comparison)
    requires FrontInv(s, leq) && Enabled(s, InsertKey(r))
    ensures FrontInv(Apply(s, InsertKey(r), leq), leq)
  {
    assert PhaseFits(s, r);
    if s.requests[r].key in s.keys {
      SetPhaseKeepsFront(s, r, Conflicted, leq);
    } else {
      WinKeepsFront(s, r, leq);
    }
  }

  lemma LookupKeepsFront(s: System, r: ReqId, leq: Comparison)
    requires FrontInv(s, leq) && Enabled(s, Lookup(r))
    ensures FrontInv(Apply(s, Lookup(r), leq), leq)
  {
    assert PhaseFits(s, r);
    SetPhaseKeepsFront(s, r, Apply(s, Lookup(r), leq).requests[r].phase, leq);
  }

  lemma CompleteKeepsFront(s: System, r: ReqId, response: Response, leq: Comparison)
    requires FrontInv(s, leq) && Won(s, r) && s.keys[s.requests[r].key].state == InProgress && Backed(s, response)
    ensures FrontInv(Complete(s, r, response), leq)
  {
    var after := Complete(s, r, response);
    forall q | q in after.requests
      ensures PhaseFits(after, q)
    {
      assert PhaseFits(s, q);
    }
  }

  lemma LaunchKeepsFront(s: System, r: ReqId, o: OrderId, cart: Protocol.Cart, candidates: seq<WarehouseId>,
                         leq: Comparison)
    requires FrontInv(s, leq) && Enabled(s, Launch(r, o, cart, candidates))
    ensures FrontInv(Apply(s, Launch(r, o, cart, candidates), leq), leq)
  {
    assert PhaseFits(s, r);
    LaunchKeys(s, r, o, cart, candidates, leq);
    LaunchOwns(s, r, o, cart, candidates, leq);
    LaunchBacked(s, r, o, cart, candidates, leq);
  }

  lemma LaunchKeys(s: System, r: ReqId, o: OrderId, cart: Protocol.Cart, candidates: seq<WarehouseId>, leq: Comparison)
    requires KeysFit(s, leq) && Enabled(s, Launch(r, o, cart, candidates)) && PhaseFits(s, r)
    requires s.sagaOf.Keys == s.core.sagas.Keys
    ensures KeysFit(Apply(s, Launch(r, o, cart, candidates), leq), leq)
  {
    var after := Apply(s, Launch(r, o, cart, candidates), leq);
    forall q | q in after.requests
      ensures PhaseFits(after, q)
    {
      LaunchFits(s, r, o, cart, candidates, leq, q);
    }
  }

  lemma LaunchBacked(s: System, r: ReqId, o: OrderId, cart: Protocol.Cart, candidates: seq<WarehouseId>,
                     leq: Comparison)
    requires AnswersBacked(s) && Enabled(s, Launch(r, o, cart, candidates))
    ensures AnswersBacked(Apply(s, Launch(r, o, cart, candidates), leq))
  {
  }

  lemma LaunchFits(s: System, r: ReqId, o: OrderId, cart: Protocol.Cart, candidates: seq<WarehouseId>, leq: Comparison,
                   q: ReqId)
    requires Enabled(s, Launch(r, o, cart, candidates)) && q in s.requests && PhaseFits(s, q) && PhaseFits(s, r)
    requires s.sagaOf.Keys == s.core.sagas.Keys
    ensures PhaseFits(Apply(s, Launch(r, o, cart, candidates), leq), q)
  {
  }

  lemma LaunchOwns(s: System, r: ReqId, o: OrderId, cart: Protocol.Cart, candidates: seq<WarehouseId>, leq: Comparison)
    requires SagasOwned(s) && Enabled(s, Launch(r, o, cart, candidates)) && PhaseFits(s, r)
    ensures SagasOwned(Apply(s, Launch(r, o, cart, candidates), leq))
  {
    var after := Apply(s, Launch(r, o, cart, candidates), leq);
    assert forall q | q in s.requests && Won(s, q) :: Won(after, q);
  }

  lemma CoreKeepsFront(s: System, step: Protocol.Step, leq: Comparison)
    requires FrontInv(s, leq) && Enabled(s, Core(step))
    ensures FrontInv(Apply(s, Core(step), leq), leq)
  {
    CoreKeepsSagas(s.core, step);
    var after := Apply(s, Core(step), leq);
    forall r | r in after.requests
      ensures PhaseFits(after, r)
    {
      assert PhaseFits(s, r);
    }
  }

  lemma CoreKeepsSagas(s: Protocol.State, step: Protocol.Step)
    requires Protocol.Enabled(s, step) && !step.StartSaga?
    ensures Protocol.Apply(s, step).sagas.Keys == s.sagas.Keys
    ensures forall o | o in s.sagas && s.sagas[o].Finished? :: Protocol.Apply(s, step).sagas[o] == s.sagas[o]
  {
  }

  lemma PostKeepsFront(s: System, r: ReqId, key: Key, body: Json, leq: Comparison)
    requires FrontInv(s, leq) && r !in s.requests
    ensures FrontInv(s.(requests := s.requests[r := Request(key, body, Arrived)]), leq)
  {
    var after := s.(requests := s.requests[r := Request(key, body, Arrived)]);
    forall q | q in after.requests
      ensures PhaseFits(after, q)
    {
      if q in s.requests {
        assert PhaseFits(s, q);
      }
    }
  }

  lemma StepKeepsFront(s: System, step: SysStep, leq: Comparison)
    requires FrontInv(s, leq) && Enabled(s, step)
    ensures FrontInv(Apply(s, step, leq), leq)
  {
    match step
    case Core(core) => CoreKeepsFront(s, core, leq);
    case InsertKey(r) => InsertKeepsFront(s, r, leq);
    case Lookup(r) => LookupKeepsFront(s, r, leq);
    case EndEarly(r, response) =>
      assert PhaseFits(s, r);
      CompleteKeepsFront(s, r, response, leq);
    case Launch(r, o, cart, candidates) => LaunchKeepsFront(s, r, o, cart, candidates, leq);
    case Finish(r) =>
      assert PhaseFits(s, r);
      CompleteKeepsFront(s, r, SagaResponse(s.requests[r].phase.order, s.core.sagas[s.requests[r].phase.order]).value,
                         leq);
    case Post(r, key, body) => PostKeepsFront(s, r, key, body, leq);
    case Lose(r) => SetPhaseKeepsFront(s, r, Lost, leq);
  }

  // ---------- every run ----------

  lemma {:induction false} RunFrontInv(states: seq<System>, steps: seq<SysStep>, opening: map<StockKey, int>,
                                       leq: Comparison, i: nat)
    requires SysRun(states, steps, opening, leq) && i < |states|
    ensures FrontInv(states[i], leq)
  {
    if i > 0 {
      RunFrontInv(states, steps, opening, leq, i - 1);
      StepKeepsFront(states[i - 1], steps[i - 1], leq);
    }
  }

  /** Orders, requests under way and records all come from sagas. */
  ghost predicate Attributed(s: Protocol.State) {
    && s.tables.orders.Keys <= s.sagas.Keys && s.records.Keys <= s.sagas.Keys
    && forall o | Protocol.Wire(s, o) > 0 :: o in s.sagas
  }

  lemma StepKeepsAttributed(s: Protocol.State, step: Protocol.Step)
    requires Attributed(s) && Protocol.Enabled(s, step)
    ensures Attributed(Protocol.Apply(s, step))
  {
    StepKeepsWires(s, step);
    if step.TryReserve? {
      ReserveAttributed(s, step.order, step.lockTimeout);
    } else if step.SettleSaga? {
      SettleAttributed(s.tables, step.order, None, Protocol.PhaseThree(s.sagas[step.order].status).0, s.now);
    } else if step.ResolveTask? {
      var task := s.tasks[step.task];
      SettleAttributed(s.tables, task.order, Protocol.Decide(task).payment, Protocol.Decide(task).action, s.now);
    }
  }

  lemma StepKeepsWires(s: Protocol.State, step: Protocol.Step)
    requires Protocol.Enabled(s, step) && forall o | Protocol.Wire(s, o) > 0 :: o in s.sagas
    ensures var after := Protocol.Apply(s, step);
            s.sagas.Keys <= after.sagas.Keys && forall o | Protocol.Wire(after, o) > 0 :: o in after.sagas
  {
    var after := Protocol.Apply(s, step);
    forall o | Protocol.Wire(after, o) > 0
      ensures o in after.sagas
    {
      assert Protocol.Wire(s, o) > 0 || (step.SendPost? && step.order == o);
    }
  }

  lemma ReserveAttributed(s: Protocol.State, o: OrderId, lockTimeout: bool)
    requires Protocol.Enabled(s, Protocol.TryReserve(o, lockTimeout))
    ensures Protocol.AfterAttempt(s, o, lockTimeout).tables.orders.Keys <= s.tables.orders.Keys + {o}
  {
  }

  lemma SettleAttributed(t: Tables, o: OrderId, payment: Option<PaymentStatus>, action: Action, now: int)
    ensures Protocol.AfterSettle(t, o, payment, action, now).orders.Keys == t.orders.Keys
  {
  }

  lemma SysStepKeepsAttributed(s: System, step: SysStep, leq: Comparison)
    requires Attributed(s.core) && Enabled(s, step)
    ensures Attributed(Apply(s, step, leq).core)
  {
    match step
    case Core(core) => StepKeepsAttributed(s.core, core);
    case Launch(_, o, cart, candidates) => StepKeepsAttributed(s.core, Protocol.StartSaga(o, cart, candidates));
    case _ =>
  }

  lemma {:induction false} RunAttributed(states: seq<System>, steps: seq<SysStep>, opening: map<StockKey, int>,
                                         leq: Comparison, i: nat)
    requires SysRun(states, steps, opening, leq) && i < |states|
    ensures Attributed(states[i].core)
  {
    if i > 0 {
      RunAttributed(states, steps, opening, leq, i - 1);
      SysStepKeepsAttributed(states[i - 1], steps[i - 1], leq);
    }
  }

  predicate OrderOrChargeExists(s: System, o: OrderId) {
    o in s.core.tables.orders || o in s.core.records
  }

  function KeyOfOrder(s: System, o: OrderId): Option<Key> {
    if o in s.sagaOf && s.sagaOf[o] in s.requests then Some(s.requests[s.sagaOf[o]].key) else None
  }

  /** Every order and every provider charge comes from a request, and one key yields at most one of each. */
  lemma OneOrderAndChargePerKey(states: seq<System>, steps: seq<SysStep>, opening: map<StockKey, int>, leq: Comparison,
                                i: nat, o: OrderId, q: OrderId)
    requires SysRun(states, steps, opening, leq) && i < |states|
    requires OrderOrChargeExists(states[i], o) && OrderOrChargeExists(states[i], q)
    ensures KeyOfOrder(states[i], o).Some? && KeyOfOrder(states[i], q).Some?
    ensures KeyOfOrder(states[i], o) == KeyOfOrder(states[i], q) ==> o == q
  {
    RunFrontInv(states, steps, opening, leq, i);
    RunAttributed(states, steps, opening, leq, i);
    var s := states[i];
    assert Won(s, s.sagaOf[o]) && Won(s, s.sagaOf[q]);
  }

  lemma StepKeepsCompleted(s: System, step: SysStep, leq: Comparison, k: Key)
    requires FrontInv(s, leq) && Enabled(s, step) && k in s.keys && s.keys[k].state.Completed?
    ensures k in Apply(s, step, leq).keys && Apply(s, step, leq).keys[k] == s.keys[k]
  {
    if step.EndEarly? || step.Finish? {
      assert PhaseFits(s, step.req);
    }
  }

  /** An answer, once stored, is never replaced. */
  lemma {:induction false} CompletedForever(states: seq<System>, steps: seq<SysStep>, opening: map<StockKey, int>,
                                            leq: Comparison, i: nat, j: nat, k: Key)
    requires SysRun(states, steps, opening, leq) && i <= j < |states|
    requires k in states[i].keys && states[i].keys[k].state.Completed?
    ensures k in states[j].keys && states[j].keys[k] == states[i].keys[k]
  {
    if i < j {
      CompletedForever(states, steps, opening, leq, i, j - 1, k);
      RunFrontInv(states, steps, opening, leq, j - 1);
      StepKeepsCompleted(states[j - 1], steps[j - 1], leq, k);
    }
  }

  /** The response this request has been given, by its own saga or by replay. */
  function Received(s: System, r: ReqId): Option<Response> {
    if r !in s.requests then None
    else
      match s.requests[r].phase
      case Answered(response) => Some(response)
      case Replayed(response) => Some(response)
      case _ => None
  }

  lemma ReceivedIsStored(s: System, leq: Comparison, r: ReqId)
    requires FrontInv(s, leq) && Received(s, r).Some?
    ensures var k := s.requests[r].key;
            && k in s.keys && s.keys[k].state == Completed(Received(s, r).value)
            && s.keys[k].id in s.requests
            && Similar(s.requests[r].body, s.requests[s.keys[k].id].body)
  {
    assert PhaseFits(s, r);
    SameFormMeansSimilar(s.requests[r].body, s.requests[s.keys[s.requests[r].key].id].body, leq);
  }

  /**
   Whatever two requests with one key are given, now or later, is one and the same status and body,
   and only a body equal to the first one's up to object key order is given it.
   */
  lemma OneAnswerPerKey(states: seq<System>, steps: seq<SysStep>, opening: map<StockKey, int>, leq: Comparison,
                        i: nat, j: nat, r: ReqId, q: ReqId)
    requires SysRun(states, steps, opening, leq) && i <= j < |states|
    requires Received(states[i], r).Some? && Received(states[j], q).Some?
    requires states[i].requests[r].key == states[j].requests[q].key
    ensures Received(states[i], r) == Received(states[j], q)
    ensures var k := states[j].requests[q].key;
            && k in states[j].keys && states[j].keys[k].id in states[j].requests
            && Similar(states[j].requests[q].body, states[j].requests[states[j].keys[k].id].body)
  {
    RunFrontInv(states, steps, opening, leq, i);
    RunFrontInv(states, steps, opening, leq, j);
    ReceivedIsStored(states[i], leq, r);
    ReceivedIsStored(states[j], leq, q);
    CompletedForever(states, steps, opening, leq, i, j, states[i].requests[r].key);
  }

  // ---------- who is replayed ----------

  lemma {:induction false} RunBodies(states: seq<System>, steps: seq<SysStep>, opening: map<StockKey, int>,
                                     leq: Comparison, i: nat)
    requires SysRun(states, steps, opening, leq) && i < |states|
    ensures BodiesWellFormed(states[i])
  {
    if i > 0 {
      RunBodies(states, steps, opening, leq, i - 1);
      StepKeepsBodies(states[i - 1], steps[i - 1], leq);
    }
  }

  lemma StepKeepsBodies(s: System, step: SysStep, leq: Comparison)
    requires BodiesWellFormed(s) && Admissible(step) && Enabled(s, step)
    ensures BodiesWellFormed(Apply(s, step, leq))
  {
  }

  /**
   What a request that lost the insert is answered, whatever happened since: 500 if and only if the row
   in its way has expired, else 422 for another fingerprint, 409 for a row in progress and the stored
   answer for a completed one.
   */
  lemma LookupAnswers(states: seq<System>, steps: seq<SysStep>, opening: map<StockKey, int>, leq: Comparison,
                      i: nat, r: ReqId)
    requires SysRun(states, steps, opening, leq) && i < |states| && Enabled(states[i], Lookup(r))
    ensures var s, k := states[i], states[i].requests[r].key;
            && k in s.keys && s.keys[k].id in s.requests
            && var row, phase := s.keys[k], Apply(s, Lookup(r), leq).requests[r].phase;
               var live, same := row.expiresAt > s.core.now, SameForm(s.requests[r].body, s.requests[row.id].body, leq);
               && (phase == RequestPhase.Refused(500) <==> !live)
               && (phase == RequestPhase.Refused(422) <==> live && !same)
               && (phase == RequestPhase.Refused(409) <==> live && same && row.state.InProgress?)
               && (phase.Replayed? <==> live && same && row.state.Completed?)
               && (phase.Replayed? ==> phase.response == row.state.response)
  {
    RunFrontInv(states, steps, opening, leq, i);
    assert PhaseFits(states[i], r);
  }

  lemma KeyRowStays(s: System, step: SysStep, leq: Comparison, k: Key)
    requires Enabled(s, step) && k in Apply(s, step, leq).keys
    ensures var row := Apply(s, step, leq).keys[k];
            if k in s.keys then row.id == s.keys[k].id && row.expiresAt == s.keys[k].expiresAt
            else
              && step == InsertKey(row.id) && row.id in s.requests && s.requests[row.id].key == k
              && row.expiresAt == s.core.now + 86_400_000
  {
  }

  /** A key is taken by one insert, for 24 hours from then, and no later step moves that. */
  lemma {:induction false} KeyLivesADay(states: seq<System>, steps: seq<SysStep>, opening: map<StockKey, int>,
                                        leq: Comparison, j: nat, k: Key) returns (i: nat)
    requires SysRun(states, steps, opening, leq) && j < |states| && k in states[j].keys
    ensures i < j && steps[i] == InsertKey(states[j].keys[k].id) && k !in states[i].keys
    ensures states[j].keys[k].id in states[i].requests && states[i].requests[states[j].keys[k].id].key == k
    ensures states[j].keys[k].expiresAt == states[i].core.now + 86_400_000
  {
    KeyRowStays(states[j - 1], steps[j - 1], leq, k);
    if k in states[j - 1].keys {
      i := KeyLivesADay(states, steps, opening, leq, j - 1, k);
    } else {
      i := j - 1;
    }
  }

  const NOT_FOUND := Response(404, Problem("not-found", None))

  lemma OneMore(states: seq<System>, steps: seq<SysStep>, opening: map<StockKey, int>, leq: Comparison, step: SysStep)
    returns (longer: seq<System>, more: seq<SysStep>)
    requires SysRun(states, steps, opening, leq) && Admissible(step) && Enabled(states[|steps|], step)
    ensures SysRun(longer, more, opening, leq) && longer[|more|] == Apply(states[|steps|], step, leq)
  {
    longer, more := states + [Apply(states[|steps|], step, leq)], steps + [step];
  }

  /** One request, answered at once. */
  lemma FirstAnswer(leq: Comparison) returns (states: seq<System>, steps: seq<SysStep>)
    ensures SysRun(states, steps, Selection.OPENING, leq)
    ensures var s := states[|steps|];
            && s.core.now == 0 && s.requests == map[0 := Request(0, Null, Answered(NOT_FOUND))]
            && s.keys == map[0 := KeyRow(0, Null, Completed(NOT_FOUND), KEY_TTL_MS)]
  {
    var opening := Selection.OPENING;
    states, steps := [System(Selection.START, map[], map[], map[])], [];
    states, steps := OneMore(states, steps, opening, leq, Post(0, 0, Null));
    states, steps := OneMore(states, steps, opening, leq, InsertKey(0));
    states, steps := OneMore(states, steps, opening, leq, EndEarly(0, NOT_FOUND));
  }

  /** The same body on the same key, a day after its answer was stored: refused, with the answer still there. */
  lemma RetryAfterExpiryIsRefused(leq: Comparison) returns (states: seq<System>, steps: seq<SysStep>)
    ensures SysRun(states, steps, Selection.OPENING, leq)
    ensures var s := states[|steps|];
            && s.requests.Keys == {0, 1} && s.requests[0].key == s.requests[1].key
            && s.requests[0].body == s.requests[1].body
            && Received(s, 0) == Some(NOT_FOUND) && s.requests[1].phase == RequestPhase.Refused(500)
            && s.requests[1].key in s.keys && s.keys[s.requests[1].key].state == Completed(NOT_FOUND)
  {
    var opening := Selection.OPENING;
    states, steps := FirstAnswer(leq);
    states, steps := OneMore(states, steps, opening, leq, Core(Protocol.Tick(86_400_000)));
    states, steps := OneMore(states, steps, opening, leq, Post(1, 0, Null));
    states, steps := OneMore(states, steps, opening, leq, InsertKey(1));
    states, steps := OneMore(states, steps, opening, leq, Lookup(1));
  }

  /**
   A request that finds its key completed and unexpired is replayed the stored answer exactly when its
   body has the first body's fingerprint, and is refused with 422 otherwise. Where the comparison ties
   no two names, that is exactly when the bodies are equal up to object key order.
   */
  lemma ReplayedIffSimilar(states: seq<System>, steps: seq<SysStep>, opening: map<StockKey, int>, leq: Comparison,
                           i: nat, r: ReqId)
    requires SysRun(states, steps, opening, leq) && i < |states| && Enabled(states[i], Lookup(r))
    requires var k := states[i].requests[r].key;
             k in states[i].keys && states[i].keys[k].state.Completed?
               && states[i].keys[k].expiresAt > states[i].core.now
    ensures var s := states[i];
            var row := s.keys[s.requests[r].key];
            var phase := Apply(s, Lookup(r), leq).requests[r].phase;
            && row.id in s.requests
            && (phase == Replayed(row.state.response) || phase == RequestPhase.Refused(422))
            && (phase.Replayed? <==> SameForm(s.requests[r].body, s.requests[row.id].body, leq))
            && (phase.Replayed? ==> Similar(s.requests[r].body, s.requests[row.id].body))
            && (TotalPreorder(leq) && NamesNeverTie(leq) ==>
                  (phase.Replayed? <==> Similar(s.requests[r].body, s.requests[row.id].body)))
  {
    RunFrontInv(states, steps, opening, leq, i);
    RunBodies(states, steps, opening, leq, i);
    var s := states[i];
    var a, b := s.requests[r].body, s.requests[s.keys[s.requests[r].key].id].body;
    if SameForm(a, b, leq) {
      SameFormMeansSimilar(a, b, leq);
    } else if TotalPreorder(leq) && NamesNeverTie(leq) && Similar(a, b) {
      SimilarMeansSameForm(a, b, leq);
    }
  }

  // ---------- runs whose jobs select safely ----------

  lemma StepKeepsCore(s: System, opening: map<StockKey, int>, step: SysStep, leq: Comparison)
    requires Inv(s.core, opening) && Admissible(step) && Enabled(s, step)
    requires step.Core? ==> SafeStep(s.core, step.step)
    ensures Inv(Apply(s, step, leq).core, opening)
  {
    match step
    case Core(core) => StepKeepsInv(s.core, opening, core);
    case Launch(_, o, cart, candidates) => StepKeepsInv(s.core, opening, Protocol.StartSaga(o, cart, candidates));
    case _ =>
  }

  lemma {:induction false} RunSysInv(states: seq<System>, steps: seq<SysStep>, opening: map<StockKey, int>,
                                     leq: Comparison, i: nat)
    requires SysRun(states, steps, opening, leq) && SysAssumed(states, steps) && i < |states|
    ensures SysInv(states[i], opening, leq)
  {
    RunFrontInv(states, steps, opening, leq, i);
    if i == 0 {
      InitInv(states[0].core, opening);
    } else {
      RunSysInv(states, steps, opening, leq, i - 1);
      StepKeepsCore(states[i - 1], opening, steps[i - 1], leq);
    }
  }

  /** What may follow a saga's phase: a finished one stays as it is. */
  predicate FollowsPhase(before: Option<Protocol.Phase>, after: Option<Protocol.Phase>) {
    before.Some? && before.value.Finished? ==> after == before
  }

  lemma StepKeepsFinished(s: System, step: SysStep, leq: Comparison, o: OrderId)
    requires Enabled(s, step)
    ensures FollowsPhase(SagaPhase(s, o), SagaPhase(Apply(s, step, leq), o))
  {
    if step.Core? {
      CoreKeepsSagas(s.core, step.step);
    }
  }

  /** One order's saga through the states of a run. */
  function Phases(states: seq<System>, o: OrderId): seq<Option<Protocol.Phase>> {
    seq(|states|, i requires 0 <= i < |states| => SagaPhase(states[i], o))
  }

  lemma RunKeepsFinished(states: seq<System>, steps: seq<SysStep>, opening: map<StockKey, int>, leq: Comparison,
                         o: OrderId)
    requires SysRun(states, steps, opening, leq)
    ensures forall i | 0 <= i < |states| - 1 :: FollowsPhase(Phases(states, o)[i], Phases(states, o)[i + 1])
  {
    forall i | 0 <= i < |steps|
      ensures FollowsPhase(SagaPhase(states[i], o), SagaPhase(states[i + 1], o))
    {
      StepKeepsFinished(states[i], steps[i], leq, o);
    }
  }

  lemma {:induction false} FinishedStays(phases: seq<Option<Protocol.Phase>>, i: nat, j: nat)
    requires i <= j < |phases| && forall k | 0 <= k < |phases| - 1 :: FollowsPhase(phases[k], phases[k + 1])
    requires phases[i].Some? && phases[i].value.Finished?
    ensures phases[j] == phases[i]
  {
    if i < j {
      FinishedStays(phases, i, j - 1);
      assert FollowsPhase(phases[j - 1], phases[j - 1 + 1]);
    }
  }

  lemma FinishedForever(states: seq<System>, steps: seq<SysStep>, opening: map<StockKey, int>, leq: Comparison,
                        i: nat, j: nat, o: OrderId)
    requires SysRun(states, steps, opening, leq) && i <= j < |states|
    requires o in states[i].core.sagas && states[i].core.sagas[o].Finished?
    ensures o in states[j].core.sagas && states[j].core.sagas[o] == states[i].core.sagas[o]
  {
    RunKeepsFinished(states, steps, opening, leq, o);
    FinishedStays(Phases(states, o), i, j);
  }

  /** A client told 201, first hand or by replay, has an order that is confirmed and charged, and stays so. */
  lemma CreatedMeansConfirmed(states: seq<System>, steps: seq<SysStep>, opening: map<StockKey, int>, leq: Comparison,
                              i: nat, j: nat, r: ReqId)
    requires SysRun(states, steps, opening, leq) && SysAssumed(states, steps) && i <= j < |states|
    requires Received(states[i], r).Some? && Received(states[i], r).value.status == 201
    ensures var body := Received(states[i], r).value.body;
            body.OrderBody? && HasStatus(states[j].core, body.order, Confirmed)
              && ChargeApproved(states[j].core, body.order)
  {
    RunFrontInv(states, steps, opening, leq, i);
    RunSysInv(states, steps, opening, leq, j);
    ReceivedIsStored(states[i], leq, r);
    var o := Received(states[i], r).value.body.order;
    FinishedForever(states, steps, opening, leq, i, j, o);
    ConfirmedAndCharged(states[j].core, opening, o);
  }

  lemma ConfirmedAndCharged(s: Protocol.State, opening: map<StockKey, int>, o: OrderId)
    requires Inv(s, opening) && o in s.sagas && s.sagas[o] == Protocol.Finished(Protocol.OrderConfirmed)
    ensures HasStatus(s, o, Confirmed) && ChargeApproved(s, o)
  {
    assert Truthful(ViewOf(s, o));
  }

  // ---------- what every other answer means ----------

  lemma ToldStays(s: System, step: SysStep, leq: Comparison, k: Key, o: OrderId)
    requires FrontInv(s, leq) && Enabled(s, step)
    requires k in s.keys && s.keys[k].state.Completed? && Told(s, k, o)
    ensures var after := Apply(s, step, leq); k in after.keys && after.keys[k] == s.keys[k] && Told(after, k, o)
  {
    StepKeepsCompleted(s, step, leq, k);
    StepKeepsFinished(s, step, leq, o);
  }

  lemma FinishTells(s: System, r: ReqId, leq: Comparison)
    requires FrontInv(s, leq) && Enabled(s, Finish(r))
    ensures var after, k := Apply(s, Finish(r), leq), s.requests[r].key;
            && k in after.keys && after.keys[k].state.Completed?
            && (after.keys[k].state.response.status != 500 ==> Told(after, k, s.requests[r].phase.order))
  {
    assert PhaseFits(s, r);
  }

  lemma StepKeepsTold(s: System, step: SysStep, leq: Comparison)
    requires FrontInv(s, leq) && AnswersTold(s) && Enabled(s, step)
    ensures AnswersTold(Apply(s, step, leq))
  {
    var after := Apply(s, step, leq);
    forall k | k in after.keys && after.keys[k].state.Completed?
        && after.keys[k].state.response.status !in {404, 422, 500}
      ensures exists o :: Told(after, k, o)
    {
      if k in s.keys && s.keys[k].state.Completed? {
        StepKeepsCompleted(s, step, leq, k);
        var o :| Told(s, k, o);
        ToldStays(s, step, leq, k, o);
      } else {
        assert step.Finish? && s.requests[step.req].key == k;
        FinishTells(s, step.req, leq);
      }
    }
  }

  lemma {:induction false} RunTold(states: seq<System>, steps: seq<SysStep>, opening: map<StockKey, int>,
                                   leq: Comparison, i: nat)
    requires SysRun(states, steps, opening, leq) && i < |states|
    ensures AnswersTold(states[i])
  {
    if i > 0 {
      RunTold(states, steps, opening, leq, i - 1);
      RunFrontInv(states, steps, opening, leq, i - 1);
      StepKeepsTold(states[i - 1], steps[i - 1], leq);
    }
  }

  /** Nothing was reserved, ordered or charged. */
  ghost predicate Untouched(s: Protocol.State, o: OrderId) {
    && o !in s.tables.orders && o !in s.tables.payments && o !in s.records
    && forall p :: Entries(s.tables.books.ledger, o, p) == []
  }

  /** What an answer says of its key's order. */
  ghost predicate TrueOf(s: Protocol.State, o: OrderId, response: Response) {
    && (response.status == 201 ==> response.body == OrderBody(o) && HasStatus(s, o, Confirmed) && ChargeApproved(s, o))
    && (response.status == 402 ==> HasStatus(s, o, PaymentFailed) && !ChargeApproved(s, o))
    && (response.status == 409 ==> Untouched(s, o))
    && (response.status == 502 ==>
          response.body.Problem? && response.body.about == Some(o)
          && o in s.tables.orders && o in s.tables.payments)
  }

  lemma ResultIsTrue(s: Protocol.State, opening: map<StockKey, int>, o: OrderId)
    requires Inv(s, opening) && o in s.sagas && s.sagas[o].Finished?
    ensures TrueOf(s, o, ResponseTo(o, s.sagas[o].result))
  {
    assert Truthful(ViewOf(s, o));
  }

  /**
   Any answer of a saga, given now or by replay, is about one order, the key's own, and stays true of
   it: 201 confirmed and charged, 402 failed and not charged, 409 nothing reserved or charged at all,
   502 an order whose outcome is open.
   */
  lemma AnswersAreTrue(states: seq<System>, steps: seq<SysStep>, opening: map<StockKey, int>, leq: Comparison,
                       i: nat, j: nat, r: ReqId)
    returns (o: OrderId)
    requires SysRun(states, steps, opening, leq) && SysAssumed(states, steps) && i <= j < |states|
    requires Received(states[i], r).Some? && Received(states[i], r).value.status !in {404, 422, 500}
    ensures KeyOfOrder(states[j], o) == Some(states[i].requests[r].key)
    ensures TrueOf(states[j].core, o, Received(states[i], r).value)
  {
    var k := states[i].requests[r].key;
    RunFrontInv(states, steps, opening, leq, i);
    ReceivedIsStored(states[i], leq, r);
    CompletedForever(states, steps, opening, leq, i, j, k);
    RunTold(states, steps, opening, leq, j);
    o :| Told(states[j], k, o);
    RunFrontInv(states, steps, opening, leq, j);
    RunSysInv(states, steps, opening, leq, j);
    ResultIsTrue(states[j].core, opening, o);
  }
}
