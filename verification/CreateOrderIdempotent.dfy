/** One POST /orders request from key row to answer; other requests use the table between its statements. */
module CreateOrderIdempotent {
  import opened Wrappers
  import opened Fingerprint
  import opened Requests
  import Protocol

  class KeyTable {
    var rows: map<Key, KeyRow>

    constructor ()
      ensures rows == map[]
    {
      rows := map[];
    }

    /** INSERT under the unique constraint on the key. */
    method InsertInProgress(key: Key, id: ReqId, fingerprint: Json, now: int) returns (ok: bool)
      modifies this
      ensures ok <==> key !in old(rows)
      ensures rows == if ok then old(rows)[key := KeyRow(id, fingerprint, InProgress, now + KEY_TTL_MS)] else old(rows)
    {
      ok := key !in rows;
      if ok {
        rows := rows[key := KeyRow(id, fingerprint, InProgress, now + KEY_TTL_MS)];
      }
    }

    /** An expired row counts as absent. */
    method FindActiveByKey(key: Key, now: int) returns (row: Option<KeyRow>)
      ensures row.Some? <==> key in rows && rows[key].expiresAt > now
      ensures row.Some? ==> row.value == rows[key]
    {
      if key in rows && rows[key].expiresAt > now {
        return Some(rows[key]);
      }
      row := None;
    }

    /** UPDATE ... WHERE id = id. */
    method MarkRowCompleted(id: ReqId, response: Response, ghost key: Key)
      requires forall k | k in rows && rows[k].id == id :: k == key
      modifies this
      ensures rows == MarkCompleted(old(rows), key, id, response)
    {
      rows := map k | k in rows :: if rows[k].id == id then rows[k].(state := Completed(response)) else rows[k];
    }

    /** What other requests make of the table meanwhile. */
    method Overtaken(others: map<Key, KeyRow>)
      modifies this
      ensures rows == others
    {
      rows := others;
    }
  }

  datatype Header = Missing | Malformed | Valid(key: Key)

  /** What the saga comes to: an order, or an error with the problem built from it. */
  datatype SagaOutcome = Created(order: nat) | Thrown(problem: Response)

  datatype Begun = New | Replay(response: Response) | Rejected(status: int)

  /** The insert decides who runs the saga; whoever loses answers from the row that was in the way. */
  method BeginIdempotentRequest(table: KeyTable, key: Key, id: ReqId, fingerprint: Json, meanwhile: map<Key, KeyRow>,
                                now: int, lookupAt: int)
    returns (begun: Begun)
    requires key in table.rows ==> key in meanwhile
    modifies table
    ensures key !in old(table.rows) ==>
      begun == New && table.rows == old(table.rows)[key := KeyRow(id, fingerprint, InProgress, now + KEY_TTL_MS)]
    ensures key in old(table.rows) ==>
      && table.rows == meanwhile && begun != New
      && AfterLookup(meanwhile[key], fingerprint, lookupAt) ==
         (if begun.Replay? then Replayed(begun.response) else RequestPhase.Refused(begun.status))
  {
    var ok := table.InsertInProgress(key, id, fingerprint, now);
    if ok {
      return New;
    }
    table.Overtaken(meanwhile);
    var existing := table.FindActiveByKey(key, lookupAt);
    if existing.None? {
      return Rejected(500);
    }
    if existing.value.fingerprint != fingerprint {
      return Rejected(422);
    }
    if existing.value.state == InProgress {
      return Rejected(409);
    }
    begun := Replay(existing.value.state.response);
  }

  function ResponseOf(outcome: SagaOutcome): Response {
    match outcome
    case Created(o) => Response(201, OrderBody(o))
    case Thrown(problem) => problem
  }

  /** How a finished saga ends execute(): a confirmed order is returned, anything else thrown with its problem. */
  predicate EndsAs(o: nat, result: Protocol.SagaResult, outcome: SagaOutcome) {
    match result
    case OrderConfirmed => outcome == Created(o)
    case PaymentDeclined => outcome == Thrown(Response(402, Problem("payment-declined", None)))
    case ProviderUnavailable => outcome == Thrown(Response(502, Problem("payment-provider-unavailable", Some(o))))
    case RaceLost(_) => outcome == Thrown(Response(409, Problem("inventory-reservation-conflict", None)))
  }

  /** The answer stored here is the one the requests' own model gives for the saga's result. */
  lemma AnswerIsTheSagas(o: nat, result: Protocol.SagaResult, outcome: SagaOutcome)
    requires EndsAs(o, result, outcome)
    ensures ResponseOf(outcome) == ResponseTo(o, result)
    ensures ResponseOf(outcome).status == match result
                                          case OrderConfirmed => 201
                                          case PaymentDeclined => 402
                                          case ProviderUnavailable => 502
                                          case RaceLost(_) => 409
  {
  }

  /** Whatever the saga comes to is stored before it is sent, success and error alike. */
  method RunAndRecord(table: KeyTable, ghost key: Key, id: ReqId, outcome: SagaOutcome) returns (sent: Response)
    requires forall k | k in table.rows && table.rows[k].id == id :: k == key
    modifies table
    ensures sent == ResponseOf(outcome) && table.rows == MarkCompleted(old(table.rows), key, id, sent)
  {
    match outcome
    case Created(o) =>
      sent := Response(201, OrderBody(o));
      table.MarkRowCompleted(id, sent, key);
    case Thrown(problem) =>
      sent := problem;
      table.MarkRowCompleted(id, sent, key);
  }

  /**
   A whole request. The saga runs exactly for the request whose insert found no row, and its key's
   row, still its own after whatever others did, then holds the very answer sent.
   */
  method Execute(table: KeyTable, header: Header, id: ReqId, body: Json, leq: Comparison, outcome: SagaOutcome,
                 meanwhile: map<Key, KeyRow>, now: int, lookupAt: int)
    returns (phase: RequestPhase, ran: bool)
    requires header.Valid? && header.key in table.rows ==> header.key in meanwhile
    requires header.Valid? && header.key !in table.rows ==>
      && header.key in meanwhile
      && meanwhile[header.key] == KeyRow(id, Canonicalize(body, leq), InProgress, now + KEY_TTL_MS)
      && forall k | k in meanwhile && meanwhile[k].id == id :: k == header.key
    modifies table
    ensures !header.Valid? ==> phase == RequestPhase.Refused(400) && !ran && table.rows == old(table.rows)
    ensures header.Valid? ==> (ran <==> header.key !in old(table.rows))
    ensures header.Valid? && !ran ==>
      table.rows == meanwhile && phase == AfterLookup(meanwhile[header.key], Canonicalize(body, leq), lookupAt)
    ensures header.Valid? && ran ==>
      && phase.Answered?
      && (outcome.Created? ==> phase.response.status == 201 && phase.response.body == OrderBody(outcome.order))
      && (outcome.Thrown? ==> phase.response == outcome.problem)
    ensures header.Valid? && ran ==>
      && phase == Answered(ResponseOf(outcome))
      && table.rows == meanwhile[header.key := KeyRow(id, Canonicalize(body, leq), Completed(ResponseOf(outcome)),
                                                      now + KEY_TTL_MS)]
  {
    if !header.Valid? {
      return RequestPhase.Refused(400), false;
    }
    var begun := BeginIdempotentRequest(table, header.key, id, Canonicalize(body, leq), meanwhile, now, lookupAt);
    match begun
    case Replay(response) =>
      return Replayed(response), false;
    case Rejected(status) =>
      return RequestPhase.Refused(status), false;
    case New =>
      table.Overtaken(meanwhile);
      var sent := RunAndRecord(table, header.key, id, outcome);
      return Answered(sent), true;
  }
}
