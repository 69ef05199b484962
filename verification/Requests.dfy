/**
 POST /orders behind its Idempotency-Key. Any number of requests, with any keys and bodies, run
 against the key table and the order protocol at once; a request may be lost at any point.
 */
module Requests {
  import opened Wrappers
  import opened Books
  import opened Orders
  import opened Tables
  import opened Fingerprint
  import Protocol
  import opened ProviderTruth
  import opened Guarantees

  type ReqId = nat
  type Key = nat

  const KEY_TTL_MS := 24 * 60 * 60_000

  /** What the client receives and what the key row stores: a status and a body. */
  datatype Body = OrderBody(order: OrderId) | Problem(title: string, about: Option<OrderId>)
  datatype Response = Response(status: int, body: Body)

  datatype KeyState = InProgress | Completed(response: Response)

  /** A row of idempotency_keys; it is never deleted, and its id stands for the request that inserted it. */
  datatype KeyRow = KeyRow(id: ReqId, fingerprint: Json, state: KeyState, expiresAt: int)

  datatype RequestPhase =
    | Arrived
    | Conflicted
    | Running
    | InSaga(order: OrderId)
    | Answered(response: Response)
    | Replayed(response: Response)
    | Refused(status: int)
    | Lost

  datatype Request = Request(key: Key, body: Json, phase: RequestPhase)

  datatype System = System(core: Protocol.State, keys: map<Key, KeyRow>, requests: map<ReqId, Request>,
                           sagaOf: map<OrderId, ReqId>)

  datatype SysStep =
    | Core(step: Protocol.Step)
    | Post(req: ReqId, key: Key, body: Json)
    | InsertKey(req: ReqId)
    | Lookup(req: ReqId)
    | EndEarly(req: ReqId, response: Response)
    | Launch(req: ReqId, order: OrderId, cart: Protocol.Cart, candidates: seq<WarehouseId>)
    | Finish(req: ReqId)
    | Lose(req: ReqId)

  predicate At(s: System, r: ReqId, phase: RequestPhase) {
    r in s.requests && s.requests[r].phase == phase
  }

  /** buildProblem and toOrderResponse, as far as the saga's outcomes go. */
  function ResponseTo(o: OrderId, result: Protocol.SagaResult): Response {
    match result
    case OrderConfirmed => Response(201, OrderBody(o))
    case PaymentDeclined => Response(402, Problem("payment-declined", None))
    case ProviderUnavailable => Response(502, Problem("payment-provider-unavailable", Some(o)))
    case RaceLost(_) => Response(409, Problem("inventory-reservation-conflict", None))
  }

  /** A failure before any order id exists: not found, not fulfillable, not geocodable, unexpected. */
  predicate EarlyFailure(response: Response) {
    response.status in {404, 422, 500} && response.body.Problem? && response.body.about.None?
  }

  function SagaPhase(s: System, o: OrderId): Option<Protocol.Phase> {
    if o in s.core.sagas then Some(s.core.sagas[o]) else None
  }

  /** What a finished saga answers; a throw that is none of the typed errors is a 500. */
  function SagaResponse(o: OrderId, phase: Protocol.Phase): Option<Response> {
    match phase
    case Finished(result) => Some(ResponseTo(o, result))
    case Crashed => Some(Response(500, Problem("internal", None)))
    case _ => None
  }

  predicate Enabled(s: System, step: SysStep) {
    match step
    case Core(core) => !core.StartSaga? && Protocol.Enabled(s.core, core)
    case Post(r, _, _) => r !in s.requests
    case InsertKey(r) => At(s, r, Arrived)
    case Lookup(r) => At(s, r, Conflicted)
    case EndEarly(r, response) => At(s, r, Running) && EarlyFailure(response)
    case Launch(r, o, cart, candidates) =>
      At(s, r, Running) && Protocol.Enabled(s.core, Protocol.StartSaga(o, cart, candidates))
    case Finish(r) =>
      && r in s.requests && s.requests[r].phase.InSaga?
      && SagaPhase(s, s.requests[r].phase.order).Some?
      && SagaResponse(s.requests[r].phase.order, SagaPhase(s, s.requests[r].phase.order).value).Some?
    case Lose(r) => r in s.requests
  }

  function SetPhase(s: System, r: ReqId, phase: RequestPhase): System
    requires r in s.requests
  {
    s.(requests := s.requests[r := s.requests[r].(phase := phase)])
  }

  /** markCompleted: UPDATE ... WHERE id = the row this request inserted. */
  function MarkCompleted(keys: map<Key, KeyRow>, key: Key, r: ReqId, response: Response): map<Key, KeyRow> {
    if key in keys && keys[key].id == r then keys[key := keys[key].(state := Completed(response))] else keys
  }

  function Complete(s: System, r: ReqId, response: Response): System
    requires r in s.requests
  {
    SetPhase(s, r, Answered(response)).(keys := MarkCompleted(s.keys, s.requests[r].key, r, response))
  }

  /** The row that blocked the insert decides: expired, other body, in progress, or replay. */
  function AfterLookup(row: KeyRow, fingerprint: Json, now: int): RequestPhase {
    if row.expiresAt <= now then Refused(500)
    else if row.fingerprint != fingerprint then Refused(422)
    else
      match row.state
      case InProgress => Refused(409)
      case Completed(response) => Replayed(response)
  }

  function Apply(s: System, step: SysStep, leq: Comparison): System
    requires Enabled(s, step)
  {
    match step
    case Core(core) => s.(core := Protocol.Apply(s.core, core))
    case Post(r, key, body) => s.(requests := s.requests[r := Request(key, body, Arrived)])
    case InsertKey(r) =>
      var key := s.requests[r].key;
      if key in s.keys then SetPhase(s, r, Conflicted)
      else
        SetPhase(s, r, Running).(keys := s.keys[key := KeyRow(r, Canonicalize(s.requests[r].body, leq), InProgress,
                                                              s.core.now + KEY_TTL_MS)])
    case Lookup(r) =>
      if s.requests[r].key !in s.keys then SetPhase(s, r, Refused(500))
      else SetPhase(s, r, AfterLookup(s.keys[s.requests[r].key], Canonicalize(s.requests[r].body, leq), s.core.now))
    case EndEarly(r, response) => Complete(s, r, response)
    case Launch(r, o, cart, candidates) =>
      SetPhase(s, r, InSaga(o)).(core := Protocol.Apply(s.core, Protocol.StartSaga(o, cart, candidates)),
                                 sagaOf := s.sagaOf[o := r])
    case Finish(r) =>
      var o := s.requests[r].phase.order;
      Complete(s, r, SagaResponse(o, s.core.sagas[o]).value)
    case Lose(r) => SetPhase(s, r, Lost)
  }

  // ---------- what every reachable state satisfies ----------

  /** The request inserted its key's row, so it alone may run the saga. */
  predicate Won(s: System, r: ReqId) {
    r in s.requests && s.requests[r].key in s.keys && s.keys[s.requests[r].key].id == r
  }

  /** A request still to launch has launched nothing; one inside a saga has launched that one only. */
  ghost predicate PhaseFits(s: System, r: ReqId)
    requires r in s.requests
  {
    match s.requests[r].phase
    case Arrived => NoSagaOf(s, r)
    case Conflicted => NoSagaOf(s, r) && s.requests[r].key in s.keys
    case Running => NoSagaOf(s, r) && Won(s, r) && s.keys[s.requests[r].key].state == InProgress
    case InSaga(o) => Won(s, r) && s.keys[s.requests[r].key].state == InProgress && o in s.sagaOf && s.sagaOf[o] == r
    case Answered(response) => Won(s, r) && s.keys[s.requests[r].key].state == Completed(response)
    case Replayed(response) =>
      && NoSagaOf(s, r) && s.requests[r].key in s.keys
      && s.keys[s.requests[r].key].state == Completed(response)
    case Refused(_) => NoSagaOf(s, r)
    case Lost => true
  }

  ghost predicate NoSagaOf(s: System, r: ReqId) {
    forall o | o in s.sagaOf :: s.sagaOf[o] != r
  }

  ghost predicate SagasOwned(s: System) {
    && s.sagaOf.Keys == s.core.sagas.Keys
    && (forall o | o in s.sagaOf :: Won(s, s.sagaOf[o]))
    && (forall o, q | o in s.sagaOf && q in s.sagaOf && s.sagaOf[o] == s.sagaOf[q] :: o == q)
  }

  ghost predicate KeysFit(s: System, leq: Comparison) {
    && (forall r | r in s.requests :: PhaseFits(s, r))
    && (forall k | k in s.keys ::
          && s.keys[k].id in s.requests && s.requests[s.keys[k].id].key == k
          && s.keys[k].fingerprint == Canonicalize(s.requests[s.keys[k].id].body, leq))
    && (forall r | r in s.requests && s.requests[r].phase.Replayed? ::
          s.keys[s.requests[r].key].fingerprint == Canonicalize(s.requests[r].body, leq))
  }

  /** A stored answer about an order is the answer its saga gave. */
  ghost predicate AnswersBacked(s: System) {
    forall k | k in s.keys && s.keys[k].state.Completed? :: Backed(s, s.keys[k].state.response)
  }

  predicate Backed(s: System, response: Response) {
    && (response.status == 201 ==> response.body.OrderBody?)
    && (response.body.OrderBody? ==>
      && response.status == 201
      && response.body.order in s.core.sagas
      && s.core.sagas[response.body.order] == Protocol.Finished(Protocol.OrderConfirmed))
  }

  ghost predicate FrontInv(s: System, leq: Comparison) {
    SagasOwned(s) && KeysFit(s, leq) && AnswersBacked(s)
  }

  /** The stored answer is what this saga, started by the row's own request, came to. */
  predicate Told(s: System, k: Key, o: OrderId)
    requires k in s.keys && s.keys[k].state.Completed?
  {
    && o in s.sagaOf && s.sagaOf[o] == s.keys[k].id
    && o in s.core.sagas && s.core.sagas[o].Finished?
    && s.keys[k].state.response == ResponseTo(o, s.core.sagas[o].result)
  }

  /** A stored answer but 404, 422 or 500 comes from a finished saga of its own. */
  ghost predicate AnswersTold(s: System) {
    forall k | k in s.keys && s.keys[k].state.Completed? && s.keys[k].state.response.status !in {404, 422, 500} ::
      exists o :: Told(s, k, o)
  }

  // ---------- runs ----------

  ghost predicate Init(s: System, opening: map<StockKey, int>) {
    Protocol.Init(s.core, opening) && s.keys == map[] && s.requests == map[] && s.sagaOf == map[]
  }

  ghost predicate Admissible(step: SysStep) {
    && (step.Launch? ==> ValidLines(step.cart.lines))
    && (step.Post? ==> WellFormed(step.body))
  }

  ghost predicate SysRun(states: seq<System>, steps: seq<SysStep>, opening: map<StockKey, int>, leq: Comparison) {
    && |states| == |steps| + 1
    && Init(states[0], opening)
    && forall i | 0 <= i < |steps| ::
         Admissible(steps[i]) && Enabled(states[i], steps[i]) && states[i + 1] == Apply(states[i], steps[i], leq)
  }

  /** The protocol's assumption: jobs select safely, and the provider never forgets. */
  ghost predicate SysAssumed(states: seq<System>, steps: seq<SysStep>) {
    && |states| == |steps| + 1
    && forall i | 0 <= i < |steps| && steps[i].Core? :: SafeStep(states[i].core, steps[i].step)
  }

  ghost predicate BodiesWellFormed(s: System) {
    forall r | r in s.requests :: WellFormed(s.requests[r].body)
  }

  ghost predicate SysInv(s: System, opening: map<StockKey, int>, leq: Comparison) {
    FrontInv(s, leq) && Inv(s.core, opening)
  }
}
