/**
 The payment provider's charge store under overlapping requests. The event loop runs one piece of
 code at a time, so a call is a sequence of pieces: its arrival, its timer, its finally block and,
 for a call that found another one in flight, its wake-up. Pieces of different calls interleave.
 */
module ChargeService {
  import opened Wrappers
  import Protocol

  type Key = nat

  const CARD_DECLINED_LAST4 := "0002"
  const CARD_PROVIDER_ERROR_LAST4 := "0003"
  const CARD_TIMEOUT_LAST4 := "0004"

  /** The request's body by what the service reads of it; only the card's last four digits are kept. */
  datatype Request = Request(key: Key, last4: string, amountCents: int, currency: string, description: string)
  datatype Fingerprint = Fingerprint(last4: string, amountCents: int, currency: string, description: string)

  /** The random id and the clock reading a new record gets. */
  datatype Stamp = Stamp(id: nat, createdAt: int)
  datatype Record = Record(stamp: Stamp, key: Key, requestHash: Fingerprint, status: Protocol.ChargeStatus)

  datatype Answer = Charged(record: Record) | ProviderFault | KeyReused

  datatype Stage =
    | Delaying
    | DelayingCard0004(record: Record)
    | Settled(answer: Answer)
    | Waiting(owner: nat, ownerHash: Fingerprint)
    | Replied(reply: Answer)
  datatype Call = Call(request: Request, stage: Stage)
  datatype Pending = Pending(requestHash: Fingerprint, owner: nat)

  datatype Store = Store(records: map<Key, Record>, pending: map<Key, Pending>, calls: map<nat, Call>)

  datatype Step =
    | Arrive(call: nat, request: Request, stamp: Stamp)
    | TimerFires(call: nat, stamp: Stamp)
    | Finally(call: nat)
    | WakeUp(call: nat)

  function RequestHash(r: Request): Fingerprint {
    Fingerprint(r.last4, r.amountCents, r.currency, r.description)
  }

  function NewRecord(r: Request, status: Protocol.ChargeStatus, stamp: Stamp): Record {
    Record(stamp, r.key, RequestHash(r), status)
  }

  function Replay(existing: Record, r: Request): Answer {
    if existing.requestHash != RequestHash(r) then KeyReused else Charged(existing)
  }

  /** process() up to its first await: the records afterwards and where the call then stands. */
  function Processed(records: map<Key, Record>, r: Request, stamp: Stamp): (map<Key, Record>, Stage) {
    if r.last4 == CARD_TIMEOUT_LAST4 then
      if r.key in records then (records, DelayingCard0004(records[r.key]))
      else
        var record := NewRecord(r, Protocol.Approved, stamp);
        (records[r.key := record], DelayingCard0004(record))
    else if r.key in records then (records, Settled(Replay(records[r.key], r)))
    else if r.last4 == CARD_PROVIDER_ERROR_LAST4 then (records, Settled(ProviderFault))
    else if r.last4 == CARD_DECLINED_LAST4 then
      var record := NewRecord(r, Protocol.Refused, stamp);
      (records[r.key := record], Settled(Charged(record)))
    else (records, Delaying)
  }

  predicate InFlight(stage: Stage) {
    stage.Delaying? || stage.DelayingCard0004? || stage.Settled?
  }

  /** The promise of the call a waiter found in flight has its value. */
  predicate Resolved(s: Store, c: nat) {
    c in s.calls && (s.calls[c].stage.Settled? || s.calls[c].stage.Replied?)
  }

  function PromiseValue(s: Store, c: nat): Answer
    requires Resolved(s, c)
  {
    if s.calls[c].stage.Settled? then s.calls[c].stage.answer else s.calls[c].stage.reply
  }

  predicate Enabled(s: Store, step: Step) {
    match step
    case Arrive(c, _, _) => c !in s.calls
    case TimerFires(c, _) => c in s.calls && (s.calls[c].stage.Delaying? || s.calls[c].stage.DelayingCard0004?)
    case Finally(c) => c in s.calls && s.calls[c].stage.Settled?
    case WakeUp(c) => c in s.calls && s.calls[c].stage.Waiting? && Resolved(s, s.calls[c].stage.owner)
  }

  function Apply(s: Store, step: Step): Store
    requires Enabled(s, step)
  {
    match step
    case Arrive(c, r, stamp) =>
      if r.key in s.pending then
        s.(calls := s.calls[c := Call(r, Waiting(s.pending[r.key].owner, s.pending[r.key].requestHash))])
      else
        var (records, stage) := Processed(s.records, r, stamp);
        Store(records, s.pending[r.key := Pending(RequestHash(r), c)], s.calls[c := Call(r, stage)])
    case TimerFires(c, stamp) =>
      var r := s.calls[c].request;
      if s.calls[c].stage.DelayingCard0004? then
        s.(calls := s.calls[c := Call(r, Settled(Replay(s.calls[c].stage.record, r)))])
      else
        var record := NewRecord(r, Protocol.Approved, stamp);
        s.(records := s.records[r.key := record], calls := s.calls[c := Call(r, Settled(Charged(record)))])
    case Finally(c) =>
      var r := s.calls[c].request;
      s.(pending := map k | k in s.pending && k != r.key :: s.pending[k],
         calls := s.calls[c := Call(r, Replied(s.calls[c].stage.answer))])
    case WakeUp(c) =>
      var r := s.calls[c].request;
      var waiting := s.calls[c].stage;
      var answer := if waiting.ownerHash != RequestHash(r) then KeyReused else PromiseValue(s, waiting.owner);
      s.(calls := s.calls[c := Call(r, Replied(answer))])
  }

  class ChargeService {
    var records: map<Key, Record>
    var pending: map<Key, Pending>
    var calls: map<nat, Call>

    constructor ()
      ensures Contents() == Store(map[], map[], map[])
    {
      records, pending, calls := map[], map[], map[];
    }

    function Contents(): Store
      reads this
    {
      Store(records, pending, calls)
    }

    method Keep(r: Request, status: Protocol.ChargeStatus, stamp: Stamp) returns (record: Record)
      modifies this`records
      ensures record == NewRecord(r, status, stamp) && records == old(records)[r.key := record]
    {
      record := Record(stamp, r.key, RequestHash(r), status);
      records := records[r.key := record];
    }

    method ProcessCard0004(r: Request, stamp: Stamp) returns (stage: Stage)
      requires r.last4 == CARD_TIMEOUT_LAST4
      modifies this`records
      ensures (records, stage) == Processed(old(records), r, stamp)
    {
      if r.key in records {
        stage := DelayingCard0004(records[r.key]);
      } else {
        var record := Keep(r, Protocol.Approved, stamp);
        stage := DelayingCard0004(record);
      }
    }

    method Process(r: Request, stamp: Stamp) returns (stage: Stage)
      modifies this`records
      ensures (records, stage) == Processed(old(records), r, stamp)
    {
      if r.last4 == CARD_TIMEOUT_LAST4 {
        stage := ProcessCard0004(r, stamp);
        return;
      }
      if r.key in records {
        var existing := records[r.key];
        if existing.requestHash != RequestHash(r) {
          return Settled(KeyReused);
        }
        return Settled(Charged(existing));
      }
      if r.last4 == CARD_PROVIDER_ERROR_LAST4 {
        return Settled(ProviderFault);
      }
      if r.last4 == CARD_DECLINED_LAST4 {
        var record := Keep(r, Protocol.Refused, stamp);
        return Settled(Charged(record));
      }
      stage := Delaying;
    }

    /** charge() up to its first await. */
    method Charge(c: nat, r: Request, stamp: Stamp)
      requires c !in calls
      modifies this
      ensures Contents() == Apply(old(Contents()), Arrive(c, r, stamp))
    {
      if r.key in pending {
        var already := pending[r.key];
        calls := calls[c := Call(r, Waiting(already.owner, already.requestHash))];
        return;
      }
      var stage := Process(r, stamp);
      pending := pending[r.key := Pending(RequestHash(r), c)];
      calls := calls[c := Call(r, stage)];
    }

    /** process() after its delay. */
    method Resume(c: nat, stamp: Stamp)
      requires Enabled(Contents(), TimerFires(c, stamp))
      modifies this
      ensures Contents() == Apply(old(Contents()), TimerFires(c, stamp))
    {
      var r := calls[c].request;
      if calls[c].stage.DelayingCard0004? {
        var record := calls[c].stage.record;
        if record.requestHash != RequestHash(r) {
          calls := calls[c := Call(r, Settled(KeyReused))];
          return;
        }
        calls := calls[c := Call(r, Settled(Charged(record)))];
        return;
      }
      var record := Keep(r, Protocol.Approved, stamp);
      calls := calls[c := Call(r, Settled(Charged(record)))];
    }

    /** charge()'s finally block, which forgets the call in flight, and its answer. */
    method Release(c: nat)
      requires Enabled(Contents(), Finally(c))
      modifies this
      ensures Contents() == Apply(old(Contents()), Finally(c))
    {
      var r := calls[c].request;
      pending := map k | k in pending && k != r.key :: pending[k];
      calls := calls[c := Call(r, Replied(calls[c].stage.answer))];
    }

    /** The rest of a call that awaited another one's promise. */
    method Wake(c: nat)
      requires Enabled(Contents(), WakeUp(c))
      modifies this
      ensures Contents() == Apply(old(Contents()), WakeUp(c))
    {
      var r := calls[c].request;
      var waiting := calls[c].stage;
      var outcome := PromiseValue(Contents(), waiting.owner);
      if waiting.ownerHash != RequestHash(r) {
        outcome := KeyReused;
      }
      calls := calls[c := Call(r, Replied(outcome))];
    }

    /** GET /charge/:idempotencyKey reads the map alone. */
    method GetByIdempotencyKey(k: Key) returns (httpStatus: int)
      ensures httpStatus == GetAnswer(records, k)
    {
      httpStatus := if k in records then 200 else 404;
    }
  }

  // ---------- any interleaving ----------

  ghost predicate Sent(s: Store, k: Key, hash: Fingerprint) {
    exists c :: c in s.calls && s.calls[c].request.key == k && RequestHash(s.calls[c].request) == hash
  }

  ghost predicate SentOtherwise(s: Store, r: Request) {
    exists c :: c in s.calls && s.calls[c].request.key == r.key && RequestHash(s.calls[c].request) != RequestHash(r)
  }

  /**
   An answer hands out a record only if it is the stored one and the caller's own body made it, and
   says the key was reused only if another body came with the key.
   */
  ghost predicate Faithful(s: Store, r: Request, answer: Answer) {
    && (answer.Charged? ==>
          r.key in s.records && answer.record == s.records[r.key] && answer.record.requestHash == RequestHash(r))
    && (answer.KeyReused? ==> SentOtherwise(s, r))
  }

  ghost predicate CallAgrees(s: Store, c: nat)
    requires c in s.calls
  {
    var call := s.calls[c];
    && (InFlight(call.stage) ==> call.request.key in s.pending && s.pending[call.request.key].owner == c)
    && match call.stage
       case Delaying => call.request.key !in s.records
       case DelayingCard0004(record) => call.request.key in s.records && s.records[call.request.key] == record
       case Settled(answer) => Faithful(s, call.request, answer)
       case Replied(answer) => Faithful(s, call.request, answer)
       case Waiting(owner, hash) =>
         && owner in s.calls && !s.calls[owner].stage.Waiting?
         && s.calls[owner].request.key == call.request.key && RequestHash(s.calls[owner].request) == hash
  }

  predicate PendingAgrees(s: Store, k: Key)
    requires k in s.pending
  {
    var p := s.pending[k];
    p.owner in s.calls && s.calls[p.owner].request.key == k && InFlight(s.calls[p.owner].stage)
      && RequestHash(s.calls[p.owner].request) == p.requestHash
  }

  ghost predicate Inv(s: Store) {
    && (forall c | c in s.calls :: CallAgrees(s, c))
    && (forall k | k in s.pending :: PendingAgrees(s, k))
    && (forall k | k in s.records :: s.records[k].key == k && Sent(s, k, s.records[k].requestHash))
  }

  ghost predicate Adds<V>(before: map<Key, V>, after: map<Key, V>, k: Key, v: V) {
    k !in before && after == before[k := v]
  }

  /** Records are only ever added, at most one in a step, and only for a key without one. */
  ghost predicate WriteOnce(before: map<Key, Record>, after: map<Key, Record>) {
    after == before || exists k, record :: Adds(before, after, k, record)
  }

  lemma StepWritesOnce(s: Store, step: Step)
    requires Inv(s) && Enabled(s, step)
    ensures WriteOnce(s.records, Apply(s, step).records)
  {
    var after := Apply(s, step).records;
    if step.TimerFires? {
      assert CallAgrees(s, step.call);
    }
    var k :=
      if step.Arrive? then step.request.key else if step.call in s.calls then s.calls[step.call].request.key else 0;
    if after != s.records {
      assert Adds(s.records, after, k, after[k]);
    }
  }

  lemma SentStays(s: Store, step: Step)
    requires Enabled(s, step)
    ensures forall k, hash | Sent(s, k, hash) :: Sent(Apply(s, step), k, hash)
    ensures forall r | SentOtherwise(s, r) :: SentOtherwise(Apply(s, step), r)
  {
    var after := Apply(s, step);
    assert forall c | c in s.calls :: c in after.calls && after.calls[c].request == s.calls[c].request;
    forall k, hash | Sent(s, k, hash)
      ensures Sent(after, k, hash)
    {
      var c :| c in s.calls && s.calls[c].request.key == k && RequestHash(s.calls[c].request) == hash;
      assert c in after.calls;
    }
    forall r | SentOtherwise(s, r)
      ensures SentOtherwise(after, r)
    {
      var c :| c in s.calls && s.calls[c].request.key == r.key && RequestHash(s.calls[c].request) != RequestHash(r);
      assert c in after.calls;
    }
  }

  /** A stored record with another fingerprint is a body of the same key that differs. */
  lemma DifferenceWasSent(s: Store, r: Request, hash: Fingerprint)
    requires Sent(s, r.key, hash) && hash != RequestHash(r)
    ensures SentOtherwise(s, r)
  {
    var c :| c in s.calls && s.calls[c].request.key == r.key && RequestHash(s.calls[c].request) == hash;
  }

  lemma ArrivalAgrees(s: Store, step: Step)
    requires Inv(s) && Enabled(s, step) && step.Arrive?
    ensures CallAgrees(Apply(s, step), step.call)
  {
    var r := step.request;
    SentStays(s, step);
    if r.key in s.pending {
      assert PendingAgrees(s, r.key);
    } else if r.key in s.records && s.records[r.key].requestHash != RequestHash(r) {
      DifferenceWasSent(Apply(s, step), r, s.records[r.key].requestHash);
    }
  }

  lemma ReturnAgrees(s: Store, step: Step)
    requires Inv(s) && Enabled(s, step) && (step.TimerFires? || step.Finally?)
    ensures CallAgrees(Apply(s, step), step.call)
  {
    var r := s.calls[step.call].request;
    SentStays(s, step);
    assert CallAgrees(s, step.call);
    if r.key in s.records && s.records[r.key].requestHash != RequestHash(r) {
      DifferenceWasSent(Apply(s, step), r, s.records[r.key].requestHash);
    }
  }

  /** The result a waiter shares is one its own body is entitled to. */
  lemma SharedAnswerFits(s: Store, owner: nat, r: Request, hash: Fingerprint)
    requires Resolved(s, owner) && CallAgrees(s, owner) && s.calls[owner].request.key == r.key
    requires RequestHash(s.calls[owner].request) == hash
    ensures Faithful(s, r, if hash != RequestHash(r) then KeyReused else PromiseValue(s, owner))
  {
    assert Sent(s, r.key, hash);
    if hash != RequestHash(r) {
      DifferenceWasSent(s, r, hash);
    }
  }

  lemma WakeUpAgrees(s: Store, step: Step)
    requires Inv(s) && Enabled(s, step) && step.WakeUp?
    ensures CallAgrees(Apply(s, step), step.call)
  {
    var call := s.calls[step.call];
    SentStays(s, step);
    assert CallAgrees(s, step.call) && CallAgrees(s, call.stage.owner);
    SharedAnswerFits(s, call.stage.owner, call.request, call.stage.ownerHash);
  }

  /** The call that moves agrees with the store afterwards. */
  lemma MoverAgrees(s: Store, step: Step)
    requires Inv(s) && Enabled(s, step)
    ensures CallAgrees(Apply(s, step), step.call)
  {
    match step
    case Arrive(_, _, _) => ArrivalAgrees(s, step);
    case WakeUp(_) => WakeUpAgrees(s, step);
    case _ => ReturnAgrees(s, step);
  }

  lemma OthersAgree(s: Store, step: Step, c: nat)
    requires Inv(s) && Enabled(s, step) && c in Apply(s, step).calls && c != step.call
    ensures CallAgrees(Apply(s, step), c)
  {
    StepMovesOneCall(s, step);
    StepWritesOnce(s, step);
    SentStays(s, step);
    if InFlight(s.calls[c].stage) {
      OwnersStay(s, step, c);
    }
    CarriesOver(s, Apply(s, step), c);
  }

  /** A call keeps its request, and none falls back to waiting. */
  ghost predicate CallsGoOn(s: Store, after: Store) {
    forall d | d in s.calls ::
      && d in after.calls && after.calls[d].request == s.calls[d].request
      && (after.calls[d].stage.Waiting? ==> s.calls[d].stage.Waiting?)
  }

  lemma StepMovesOneCall(s: Store, step: Step)
    requires Enabled(s, step)
    ensures CallsGoOn(s, Apply(s, step))
    ensures forall c | c in Apply(s, step).calls && c != step.call ::
              c in s.calls && Apply(s, step).calls[c] == s.calls[c]
  {
  }

  /** What a call agrees with is carried over by a step that only adds. */
  lemma CarriesOver(s: Store, after: Store, c: nat)
    requires c in s.calls && c in after.calls && after.calls[c] == s.calls[c] && CallAgrees(s, c)
    requires WriteOnce(s.records, after.records)
    requires CallsGoOn(s, after)
    requires SentOtherwise(s, s.calls[c].request) ==> SentOtherwise(after, s.calls[c].request)
    requires InFlight(s.calls[c].stage) ==>
               var k := s.calls[c].request.key;
               k in after.pending && after.pending[k].owner == c && (k !in s.records ==> k !in after.records)
    ensures CallAgrees(after, c)
  {
  }

  /** A call in flight keeps its place, and an approval still delaying finds nothing stored. */
  lemma OwnersStay(s: Store, step: Step, c: nat)
    requires Inv(s) && Enabled(s, step) && c in s.calls && c != step.call && InFlight(s.calls[c].stage)
    ensures var k, after := s.calls[c].request.key, Apply(s, step);
            && k in after.pending && after.pending[k].owner == c
            && (k !in s.records ==> k !in after.records)
  {
    assert CallAgrees(s, c);
    if step.call in s.calls {
      assert CallAgrees(s, step.call);
    }
  }

  lemma PendingStays(s: Store, step: Step, k: Key)
    requires Inv(s) && Enabled(s, step) && k in Apply(s, step).pending
    ensures PendingAgrees(Apply(s, step), k)
  {
    if k in s.pending {
      assert PendingAgrees(s, k);
    }
    if step.call in s.calls {
      assert CallAgrees(s, step.call);
    }
  }

  lemma RecordsStay(s: Store, step: Step, k: Key)
    requires Inv(s) && Enabled(s, step) && k in Apply(s, step).records
    ensures Apply(s, step).records[k].key == k && Sent(Apply(s, step), k, Apply(s, step).records[k].requestHash)
  {
    StepWritesOnce(s, step);
    SentStays(s, step);
    if k !in s.records {
      assert Apply(s, step).calls[step.call].request.key == k;
    }
  }

  lemma StepKeepsInv(s: Store, step: Step)
    requires Inv(s) && Enabled(s, step)
    ensures Inv(Apply(s, step))
  {
    var after := Apply(s, step);
    MoverAgrees(s, step);
    forall c | c in after.calls && c != step.call
      ensures CallAgrees(after, c)
    {
      OthersAgree(s, step, c);
    }
    forall k | k in after.pending
      ensures PendingAgrees(after, k)
    {
      PendingStays(s, step, k);
    }
    forall k | k in after.records
      ensures after.records[k].key == k && Sent(after, k, after.records[k].requestHash)
    {
      RecordsStay(s, step, k);
    }
  }

  ghost predicate Run(stores: seq<Store>, steps: seq<Step>) {
    && |stores| == |steps| + 1
    && stores[0] == Store(map[], map[], map[])
    && forall i | 0 <= i < |steps| :: Enabled(stores[i], steps[i]) && stores[i + 1] == Apply(stores[i], steps[i])
  }

  lemma {:induction false} RunInv(stores: seq<Store>, steps: seq<Step>, i: nat)
    requires Run(stores, steps) && i < |stores|
    ensures Inv(stores[i])
  {
    if i > 0 {
      RunInv(stores, steps, i - 1);
      StepKeepsInv(stores[i - 1], steps[i - 1]);
    }
  }

  /** A stored record never changes and never goes away. */
  lemma {:induction false} RecordsNeverChange(stores: seq<Store>, steps: seq<Step>, i: nat, j: nat, k: Key)
    requires Run(stores, steps) && i <= j < |stores| && k in stores[i].records
    ensures k in stores[j].records && stores[j].records[k] == stores[i].records[k]
  {
    if i < j {
      RecordsNeverChange(stores, steps, i, j - 1, k);
      RunInv(stores, steps, j - 1);
      StepWritesOnce(stores[j - 1], steps[j - 1]);
    }
  }

  /** How many of the first n steps made a record for k. */
  function Made(stores: seq<Store>, k: Key, n: nat): nat
    requires n < |stores|
  {
    if n == 0 then 0
    else
      var before, after := stores[n - 1].records, stores[n].records;
      Made(stores, k, n - 1) + if k in after && (k !in before || after[k] != before[k]) then 1 else 0
  }

  lemma {:induction false} OneRecordPerKey(stores: seq<Store>, steps: seq<Step>, k: Key, n: nat)
    requires Run(stores, steps) && n < |stores|
    ensures Made(stores, k, n) == if k in stores[n].records then 1 else 0
  {
    if n > 0 {
      OneRecordPerKey(stores, steps, k, n - 1);
      RunInv(stores, steps, n - 1);
      StepWritesOnce(stores[n - 1], steps[n - 1]);
    }
  }

  /** A key has at most one charge in flight, and while it delays an approval nothing is stored for the key. */
  lemma OneInFlight(stores: seq<Store>, steps: seq<Step>, i: nat, c: nat, d: nat)
    requires Run(stores, steps) && i < |stores| && c in stores[i].calls && d in stores[i].calls
    requires InFlight(stores[i].calls[c].stage) && InFlight(stores[i].calls[d].stage)
    requires stores[i].calls[c].request.key == stores[i].calls[d].request.key
    ensures c == d
  {
    RunInv(stores, steps, i);
    assert CallAgrees(stores[i], c) && CallAgrees(stores[i], d);
  }

  /** Whoever is told `charged` is told the stored record, then and ever after, and sent its very body. */
  lemma ChargedMeansStored(stores: seq<Store>, steps: seq<Step>, i: nat, j: nat, c: nat)
    requires Run(stores, steps) && i <= j < |stores| && c in stores[i].calls
    requires stores[i].calls[c].stage.Replied? && stores[i].calls[c].stage.reply.Charged?
    ensures var call := stores[i].calls[c];
            && call.request.key in stores[j].records
            && call.stage.reply.record == stores[j].records[call.request.key]
            && call.stage.reply.record.requestHash ==
                 Fingerprint(call.request.last4, call.request.amountCents, call.request.currency,
                             call.request.description)
  {
    RunInv(stores, steps, i);
    assert CallAgrees(stores[i], c);
    RecordsNeverChange(stores, steps, i, j, stores[i].calls[c].request.key);
  }

  /** A waiter is never stranded: the call it awaits is in flight or has its value. */
  lemma WaitersCanWake(stores: seq<Store>, steps: seq<Step>, i: nat, c: nat)
    requires Run(stores, steps) && i < |stores| && c in stores[i].calls && stores[i].calls[c].stage.Waiting?
    ensures var owner := stores[i].calls[c].stage.owner;
            || Enabled(stores[i], WakeUp(c))
            || (exists stamp :: Enabled(stores[i], TimerFires(owner, stamp)))
  {
    RunInv(stores, steps, i);
    assert CallAgrees(stores[i], c);
    assert Enabled(stores[i], WakeUp(c)) || Enabled(stores[i], TimerFires(stores[i].calls[c].stage.owner, Stamp(0, 0)));
  }

  /** Whoever is told the key was reused shares it with a call that sent another body. */
  lemma ReusedMeansAnotherBody(stores: seq<Store>, steps: seq<Step>, i: nat, c: nat)
    requires Run(stores, steps) && i < |stores| && c in stores[i].calls
    requires stores[i].calls[c].stage.Replied? && stores[i].calls[c].stage.reply.KeyReused?
    ensures SentOtherwise(stores[i], stores[i].calls[c].request)
  {
    RunInv(stores, steps, i);
    assert CallAgrees(stores[i], c);
  }

  // ---------- the protocol's view of the provider ----------

  function Verdicts(records: map<Key, Record>): map<Key, Protocol.ChargeStatus> {
    map k | k in records :: records[k].status
  }

  function PostAnswer(answer: Answer): int {
    match answer
    case KeyReused => 422
    case ProviderFault => 500
    case Charged(record) => if record.status == Protocol.Approved then 200 else 402
  }

  function GetAnswer(records: map<Key, Record>, k: Key): int {
    if k in records then 200 else 404
  }

  /** Any step is, to the protocol, nothing or one charge landing on a key that had none. */
  lemma StepIsALanding(s: Store, step: Step)
    requires Inv(s) && Enabled(s, step)
    ensures
      var before, after := Verdicts(s.records), Verdicts(Apply(s, step).records);
      after == before || exists k, verdict :: Adds(before, after, k, verdict)
  {
    StepWritesOnce(s, step);
    var after := Apply(s, step).records;
    if after != s.records {
      var k, record :| Adds(s.records, after, k, record);
      assert Adds(Verdicts(s.records), Verdicts(after), k, record.status);
    }
  }

  /** A POST answered 200 or 402 names the stored verdict, at its time and ever after. */
  lemma PostTellsTheVerdict(stores: seq<Store>, steps: seq<Step>, i: nat, j: nat, c: nat)
    requires Run(stores, steps) && i <= j < |stores| && c in stores[i].calls && stores[i].calls[c].stage.Replied?
    ensures var key, code := stores[i].calls[c].request.key, PostAnswer(stores[i].calls[c].stage.reply);
            && (code == 200 ==> key in stores[j].records && Verdicts(stores[j].records)[key] == Protocol.Approved)
            && (code == 402 ==> key in stores[j].records && Verdicts(stores[j].records)[key] == Protocol.Refused)
  {
    if stores[i].calls[c].stage.reply.Charged? {
      ChargedMeansStored(stores, steps, i, j, c);
    }
  }

  // ---------- what the card decides ----------

  /** The answer a call has by now, its own or the one it waited for. */
  function AnswerOf(stage: Stage): Option<Answer> {
    match stage
    case Settled(answer) => Some(answer)
    case Replied(reply) => Some(reply)
    case _ => None
  }

  predicate RecordTrue(record: Record) {
    && (record.status == Protocol.Refused <==> record.requestHash.last4 == "0002")
    && record.requestHash.last4 != "0003"
  }

  predicate CallTrue(call: Call) {
    && (call.stage.Delaying? ==> call.request.last4 !in {"0002", "0003"})
    && (AnswerOf(call.stage) == Some(ProviderFault) ==> call.request.last4 == "0003")
  }

  ghost predicate CardsDecide(s: Store) {
    && (forall k | k in s.records :: RecordTrue(s.records[k]))
    && (forall c | c in s.calls :: CallTrue(s.calls[c]))
  }

  lemma ArrivalTrue(s: Store, c: nat, r: Request, stamp: Stamp)
    requires CardsDecide(s) && Enabled(s, Arrive(c, r, stamp))
    ensures CardsDecide(Apply(s, Arrive(c, r, stamp)))
  {
  }

  lemma WakingTrue(s: Store, c: nat)
    requires Inv(s) && CardsDecide(s) && Enabled(s, WakeUp(c))
    ensures CallTrue(Apply(s, WakeUp(c)).calls[c])
  {
    assert CallAgrees(s, c);
    assert CallTrue(s.calls[s.calls[c].stage.owner]);
  }

  lemma StepKeepsCards(s: Store, step: Step)
    requires Inv(s) && CardsDecide(s) && Enabled(s, step)
    ensures CardsDecide(Apply(s, step))
  {
    match step
    case Arrive(c, r, stamp) => ArrivalTrue(s, c, r, stamp);
    case TimerFires(c, _) => assert CallTrue(s.calls[c]);
    case Finally(c) => assert CallTrue(s.calls[c]);
    case WakeUp(c) => WakingTrue(s, c);
  }

  lemma {:induction false} RunCards(stores: seq<Store>, steps: seq<Step>, i: nat)
    requires Run(stores, steps) && i < |stores|
    ensures CardsDecide(stores[i])
  {
    if i > 0 {
      RunCards(stores, steps, i - 1);
      RunInv(stores, steps, i - 1);
      StepKeepsCards(stores[i - 1], steps[i - 1]);
    }
  }

  /**
   Over any interleaving the card decides: 0002 is refused and 0003 fails, every other card is approved,
   and 422 alone tells of a key that came with another body.
   */
  lemma CardDecides(stores: seq<Store>, steps: seq<Step>, i: nat, c: nat)
    requires Run(stores, steps) && i < |stores| && c in stores[i].calls && stores[i].calls[c].stage.Replied?
    ensures var r, status := stores[i].calls[c].request, PostAnswer(stores[i].calls[c].stage.reply);
            && status in {200, 402, 422, 500}
            && (status == 402 ==> r.last4 == "0002")
            && (status == 500 ==> r.last4 == "0003")
            && (status == 200 ==> r.last4 != "0002" && r.last4 != "0003")
            && (status == 422 ==> SentOtherwise(stores[i], r))
  {
    RunInv(stores, steps, i);
    RunCards(stores, steps, i);
    assert CallAgrees(stores[i], c) && CallTrue(stores[i].calls[c]);
    var r := stores[i].calls[c].request;
    if r.key in stores[i].records {
      assert RecordTrue(stores[i].records[r.key]);
    }
  }
}
