/**
 The payment adapter: bounded retries with full-jitter backoff, each attempt through the circuit
 breaker, and the reading of the provider's last word. What the network and the other callers of the
 breaker do is a parameter, so every contract holds for whatever they do.
 */
module PaymentGateway {
  import opened Wrappers
  import opened CircuitBreaker
  import opened Tables
  import ChargeService
  import Protocol

  const MAX_ATTEMPTS := 3
  const BACKOFF_BASE_MS := 200
  const ATTEMPT_TIMEOUT_MS := 2000

  datatype Thrown = CircuitOpen | Timeout | ProviderError | ConnectionRefused | NetworkError | Unforeseen

  /** A response by what the adapter reads of it: the status code and two string fields of the body. */
  datatype Response = Response(httpStatus: int, id: Option<string>, providerStatus: Option<string>)
  datatype Outcome = Value(value: Response) | Threw(error: Thrown)

  /** One attempt's surroundings: the breaker it finds, how its fetch ends, the breaker as others leave it meanwhile. */
  datatype Attempt = Attempt(found: Fields, start: int, fetched: Outcome, meanwhile: Fields, end: int)

  predicate IsRetryable(outcome: Outcome) {
    outcome.Threw? && outcome.error in {Timeout, ProviderError, ConnectionRefused, NetworkError}
  }

  predicate Admitted(a: Attempt, options: Options) {
    Started(a.found, a.start, options).1 != Rejected
  }

  /** A 5xx response is thrown, any other is a value. */
  function Received(fetched: Outcome): Outcome {
    if fetched.Value? && fetched.value.httpStatus >= 500 then Threw(ProviderError) else fetched
  }

  function OutcomeOf(a: Attempt, options: Options): Outcome {
    if Admitted(a, options) then Received(a.fetched) else Threw(CircuitOpen)
  }

  /** What the attempt leaves in the breaker: a throw counts as a failure, a value as a success. */
  function BreakerAfter(a: Attempt, options: Options): Fields {
    var (ready, verdict) := Started(a.found, a.start, options);
    if verdict == Rejected then ready
    else
      var recorded :=
        if Received(a.fetched).Threw? then AfterFailure(a.meanwhile, a.end, options) else AfterSuccess(a.meanwhile);
      if verdict == AsProbe then recorded.(probing := false) else recorded
  }

  function TimeOf(a: Attempt, options: Options): int {
    if Admitted(a, options) then a.end - a.start else 0
  }

  /** breaker.execute() around one request. */
  method Execute(breaker: CircuitBreaker, a: Attempt) returns (outcome: Outcome)
    modifies breaker
    ensures outcome == OutcomeOf(a, breaker.options)
    ensures breaker.Snapshot() == BreakerAfter(a, breaker.options)
  {
    breaker.Overtaken(a.found);
    var verdict := breaker.Start(a.start);
    if verdict == Rejected {
      return Threw(CircuitOpen);
    }
    breaker.Overtaken(a.meanwhile);
    outcome := Received(a.fetched);
    if outcome.Value? {
      breaker.OnSuccess();
    } else {
      breaker.OnFailure(a.end);
    }
    if verdict == AsProbe {
      breaker.EndProbe();
    }
  }

  // ---------- the retry loop ----------

  function Pow2(n: nat): nat {
    if n == 0 then 1 else 2 * Pow2(n - 1)
  }

  /** The n-th attempt is the last: all before it were worth retrying, and it was not or was the last allowed. */
  ghost predicate LastOf(attempts: nat -> Attempt, options: Options, n: nat, maxAttempts: int) {
    && 1 <= n <= maxAttempts
    && (forall k | 1 <= k < n :: IsRetryable(OutcomeOf(attempts(k), options)))
    && (n == maxAttempts || !IsRetryable(OutcomeOf(attempts(n), options)))
  }

  lemma LastIsUnique(attempts: nat -> Attempt, options: Options, m: nat, n: nat, maxAttempts: int)
    requires LastOf(attempts, options, m, maxAttempts) && LastOf(attempts, options, n, maxAttempts)
    ensures m == n
  {
    assert m < n ==> IsRetryable(OutcomeOf(attempts(m), options));
    assert n < m ==> IsRetryable(OutcomeOf(attempts(n), options));
  }

  /** A rejection by the breaker ends the loop: only the last attempt can be one. */
  lemma RejectionIsLast(attempts: nat -> Attempt, options: Options, n: nat, maxAttempts: int, k: nat)
    requires LastOf(attempts, options, n, maxAttempts) && 1 <= k <= n && !Admitted(attempts(k), options)
    ensures k == n && OutcomeOf(attempts(n), options) == Threw(CircuitOpen)
  {
    assert k < n ==> IsRetryable(OutcomeOf(attempts(k), options));
  }

  /**
   withRetry() around breaker.execute(): attempts(k) is what the k-th would meet with, random the
   jitter's draws. The last attempt's own outcome is surfaced, and with no attempt allowed an error
   nobody foresees.
   */
  method RunAttempts(breaker: CircuitBreaker, attempts: nat -> Attempt, random: nat -> real,
                     timeoutMs: nat, maxAttempts: int, baseDelayMs: nat)
    returns (surfaced: Outcome, calls: nat, elapsed: real)
    requires forall k :: 0.0 <= random(k) < 1.0
    requires forall k :: 0 <= attempts(k).end - attempts(k).start <= timeoutMs
    modifies breaker
    ensures maxAttempts < 1 ==>
      calls == 0 && surfaced == Threw(Unforeseen) && elapsed == 0.0 && breaker.Snapshot() == old(breaker.Snapshot())
    ensures maxAttempts >= 1 ==>
      && LastOf(attempts, breaker.options, calls, maxAttempts)
      && surfaced == OutcomeOf(attempts(calls), breaker.options)
      && breaker.Snapshot() == BreakerAfter(attempts(calls), breaker.options)
      && elapsed == Spell(attempts, random, breaker.options, baseDelayMs, calls)
      && elapsed <= (maxAttempts * timeoutMs + baseDelayMs * (Pow2(maxAttempts - 1) - 1)) as real
  {
    if maxAttempts < 1 {
      return Threw(Unforeseen), 0, 0.0;
    }
    elapsed := 0.0;
    calls := 1;
    while true
      invariant 1 <= calls <= maxAttempts
      invariant forall k | 1 <= k < calls :: IsRetryable(OutcomeOf(attempts(k), breaker.options))
      invariant elapsed == Before(attempts, random, breaker.options, baseDelayMs, calls)
      invariant elapsed <= LongestSpell(timeoutMs, baseDelayMs, calls - 1) as real
      decreases maxAttempts - calls
    {
      surfaced := Execute(breaker, attempts(calls));
      elapsed := elapsed + TimeOf(attempts(calls), breaker.options) as real;
      if calls == maxAttempts || !IsRetryable(surfaced) {
        break;
      }
      DelayIsBounded(random(calls), Cap(calls, baseDelayMs));
      elapsed := elapsed + FullJitterDelayMs(random(calls), Cap(calls, baseDelayMs));
      calls := calls + 1;
    }
    LongestSpellIs(timeoutMs, baseDelayMs, calls - 1, maxAttempts - 1);
  }

  /** The wait after failed attempt n is a random part of base * 2^(n-1). */
  function FullJitterDelayMs(random: real, cap: nat): real {
    random * cap as real
  }

  function Cap(failedAttempt: nat, baseDelayMs: nat): nat
    requires failedAttempt >= 1
  {
    baseDelayMs * Pow2(failedAttempt - 1)
  }

  lemma PartIsBounded(part: real, whole: real)
    requires 0.0 <= part < 1.0 && 0.0 <= whole
    ensures 0.0 <= part * whole <= whole
  {
    assert whole == part * whole + (1.0 - part) * whole;
  }

  lemma DelayIsBounded(random: real, cap: nat)
    requires 0.0 <= random < 1.0
    ensures 0.0 <= FullJitterDelayMs(random, cap) <= cap as real
  {
    PartIsBounded(random, cap as real);
  }

  /** The attempts before the n-th, each with the wait after it. */
  function Before(attempts: nat -> Attempt, random: nat -> real, options: Options, base: nat, n: nat): real
    requires n >= 1
  {
    if n == 1 then 0.0
    else
      Before(attempts, random, options, base, n - 1) + TimeOf(attempts(n - 1), options) as real
      + FullJitterDelayMs(random(n - 1), Cap(n - 1, base))
  }

  function Spell(attempts: nat -> Attempt, random: nat -> real, options: Options, base: nat, n: nat): real
    requires n >= 1
  {
    Before(attempts, random, options, base, n) + TimeOf(attempts(n), options) as real
  }

  /**
   How long a charge takes with the default delays: its attempts' own times, a rejected one none, and
   between them a random part of 200 and then of 400 milliseconds.
   */
  lemma SpellIs(attempts: nat -> Attempt, random: nat -> real, options: Options)
    ensures var t := (k: nat) => if Admitted(attempts(k), options) then attempts(k).end - attempts(k).start else 0;
            && Spell(attempts, random, options, BACKOFF_BASE_MS, 1) == t(1) as real
            && Spell(attempts, random, options, BACKOFF_BASE_MS, 2) == (t(1) + t(2)) as real + random(1) * 200.0
            && Spell(attempts, random, options, BACKOFF_BASE_MS, 3) ==
                 (t(1) + t(2) + t(3)) as real + random(1) * 200.0 + random(2) * 400.0
  {
    assert Cap(1, BACKOFF_BASE_MS) == 200 && Cap(2, BACKOFF_BASE_MS) == 400;
  }

  /** The longest wait doubles from one failed attempt to the next. */
  lemma WaitsDouble(base: nat, n: nat)
    requires n >= 1
    ensures Cap(1, base) == base && Cap(n + 1, base) == 2 * Cap(n, base)
  {
    assert Pow2(n) == 2 * Pow2(n - 1);
  }

  /** The longest n attempts, each followed by its wait, can take. */
  function LongestSpell(timeoutMs: nat, base: nat, n: nat): nat {
    if n == 0 then 0 else LongestSpell(timeoutMs, base, n - 1) + timeoutMs + Cap(n, base)
  }

  lemma {:induction false} LongestSpellIs(timeoutMs: nat, base: nat, n: nat, most: nat)
    requires n <= most
    ensures LongestSpell(timeoutMs, base, n) + timeoutMs <= (most + 1) * timeoutMs + base * (Pow2(most) - 1)
    decreases most
  {
    if n < most {
      LongestSpellIs(timeoutMs, base, n, most - 1);
      CapIsDifference(base, Pow2(most - 1));
      NoLess(timeoutMs, most);
    } else if n > 0 {
      LongestSpellIs(timeoutMs, base, n - 1, most - 1);
      CapIsDifference(base, Pow2(most - 1));
      NoLess(timeoutMs, most);
    }
  }

  lemma NoLess(timeoutMs: nat, n: nat)
    ensures (n + 1) * timeoutMs == n * timeoutMs + timeoutMs
  {
  }

  lemma CapIsDifference(base: nat, p: nat)
    ensures base * (p - 1) + base * p == base * (2 * p - 1)
  {
  }

  // ---------- what the last word means ----------

  datatype FailureCode =
    | CARD_DECLINED | TIMEOUT | PROVIDER_ERROR | CONNECTION_REFUSED
    | NETWORK_ERROR | CIRCUIT_OPEN | INVALID_REQUEST | NOT_FOUND

  datatype ChargeResult = ChargeResult(status: PaymentStatus, paymentId: Option<string>,
                                       failureCode: Option<FailureCode>)

  function MapChargeResponse(r: Response): ChargeResult {
    if r.httpStatus == 200 then ChargeResult(Captured, r.id, None)
    else if r.httpStatus == 402 then ChargeResult(Declined, r.id, Some(CARD_DECLINED))
    else ChargeResult(Unknown, r.id, Some(INVALID_REQUEST))
  }

  function MapStatusResponse(r: Response): ChargeResult {
    if r.httpStatus == 404 then ChargeResult(PaymentStatus.Failed, None, Some(NOT_FOUND))
    else
      var status :=
        if r.httpStatus == 200 && r.providerStatus == Some("approved") then Some(Captured)
        else if r.httpStatus == 200 && r.providerStatus == Some("declined") then Some(Declined)
        else None;
      if status.None? then ChargeResult(Unknown, r.id, Some(INVALID_REQUEST))
      else ChargeResult(status.value, r.id, if status == Some(Declined) then Some(CARD_DECLINED) else None)
  }

  function ClassifyThrownFailure(error: Thrown): FailureCode {
    match error
    case CircuitOpen => CIRCUIT_OPEN
    case Timeout => TIMEOUT
    case ProviderError => PROVIDER_ERROR
    case ConnectionRefused => CONNECTION_REFUSED
    case _ => NETWORK_ERROR
  }

  function BuildUnknownResult(error: Thrown): ChargeResult {
    ChargeResult(Unknown, None, Some(ClassifyThrownFailure(error)))
  }

  function ChargeOutcome(o: Outcome): ChargeResult {
    if o.Value? then MapChargeResponse(o.value) else BuildUnknownResult(o.error)
  }

  function StatusOutcome(o: Outcome): ChargeResult {
    if o.Value? then MapStatusResponse(o.value) else BuildUnknownResult(o.error)
  }

  /** charge(): whatever happens it resolves, with the reading of the last attempt alone. */
  method Charge(breaker: CircuitBreaker, attempts: nat -> Attempt, random: nat -> real,
                timeoutMs: nat, maxAttempts: int, baseDelayMs: nat)
    returns (result: ChargeResult, calls: nat, elapsed: real)
    requires forall k :: 0.0 <= random(k) < 1.0
    requires forall k :: 0 <= attempts(k).end - attempts(k).start <= timeoutMs
    modifies breaker
    ensures maxAttempts < 1 ==> result == ChargeOutcome(Threw(Unforeseen))
    ensures maxAttempts >= 1 ==>
      && LastOf(attempts, breaker.options, calls, maxAttempts)
      && result == ChargeOutcome(OutcomeOf(attempts(calls), breaker.options))
      && elapsed == Spell(attempts, random, breaker.options, baseDelayMs, calls)
      && elapsed <= (maxAttempts * timeoutMs + baseDelayMs * (Pow2(maxAttempts - 1) - 1)) as real
  {
    var surfaced;
    surfaced, calls, elapsed := RunAttempts(breaker, attempts, random, timeoutMs, maxAttempts, baseDelayMs);
    if surfaced.Value? {
      result := MapChargeResponse(surfaced.value);
    } else {
      result := BuildUnknownResult(surfaced.error);
    }
  }

  /** getStatus(): the same loop and breaker around the GET. */
  method GetStatus(breaker: CircuitBreaker, attempts: nat -> Attempt, random: nat -> real,
                   timeoutMs: nat, maxAttempts: int, baseDelayMs: nat)
    returns (result: ChargeResult, calls: nat)
    requires forall k :: 0.0 <= random(k) < 1.0
    requires forall k :: 0 <= attempts(k).end - attempts(k).start <= timeoutMs
    modifies breaker
    ensures maxAttempts < 1 ==> result == StatusOutcome(Threw(Unforeseen))
    ensures maxAttempts >= 1 ==>
      && LastOf(attempts, breaker.options, calls, maxAttempts)
      && result == StatusOutcome(OutcomeOf(attempts(calls), breaker.options))
  {
    var surfaced, elapsed;
    surfaced, calls, elapsed := RunAttempts(breaker, attempts, random, timeoutMs, maxAttempts, baseDelayMs);
    if surfaced.Value? {
      result := MapStatusResponse(surfaced.value);
    } else {
      result := BuildUnknownResult(surfaced.error);
    }
  }

  /** Each final status of a charge has exactly one cause; the rest is UNKNOWN, told apart by its code. */
  lemma ChargeVerdicts(o: Outcome)
    ensures var result := ChargeOutcome(o);
            && result.status in {Captured, Declined, Unknown}
            && (result.status == Captured <==> o.Value? && o.value.httpStatus == 200)
            && (result.status == Declined <==> o.Value? && o.value.httpStatus == 402)
            && (result.failureCode.None? <==> result.status == Captured)
            && (result.failureCode == Some(CIRCUIT_OPEN) <==> o == Threw(CircuitOpen))
            && (result.failureCode == Some(INVALID_REQUEST) <==> o.Value? && o.value.httpStatus !in {200, 402})
            && (result.failureCode == Some(CARD_DECLINED) <==> result.status == Declined)
            && (result.failureCode == Some(TIMEOUT) <==> o == Threw(Timeout))
            && (result.failureCode == Some(PROVIDER_ERROR) <==> o == Threw(ProviderError))
            && (result.failureCode == Some(CONNECTION_REFUSED) <==> o == Threw(ConnectionRefused))
            && result.paymentId == if o.Value? then o.value.id else None
  {
  }

  /** FAILED, on which stock is given back, comes from a 404 alone. */
  lemma StatusVerdicts(o: Outcome)
    ensures var result := StatusOutcome(o);
            && (result.status == PaymentStatus.Failed <==> o.Value? && o.value.httpStatus == 404)
            && (result.status == Captured <==>
                 o.Value? && o.value.httpStatus == 200 && o.value.providerStatus == Some("approved"))
            && (result.status == Declined <==>
                 o.Value? && o.value.httpStatus == 200 && o.value.providerStatus == Some("declined"))
            && result.status in {Captured, Declined, PaymentStatus.Failed, Unknown}
            && (result.failureCode.None? <==> result.status == Captured)
            && (result.failureCode == Some(NOT_FOUND) <==> result.status == PaymentStatus.Failed)
            && (result.failureCode == Some(CARD_DECLINED) <==> result.status == Declined)
            && (result.failureCode == Some(INVALID_REQUEST) <==> o.Value? && result.status == Unknown)
            && result.paymentId == if o.Value? && o.value.httpStatus != 404 then o.value.id else None
  {
  }

  // ---------- the same of what was fetched ----------

  /** An attempt gets through unless the breaker is open for less than its window or a probe is out. */
  lemma AdmittedIff(a: Attempt, options: Options)
    ensures var over := a.found.openedAt.Some? && a.start - a.found.openedAt.value >= options.openMs;
            Admitted(a, options) <==>
            match a.found.state
            case CLOSED => true
            case OPEN => over && !a.found.probing
            case HALF_OPEN => !a.found.probing
  {
  }

  /** charge() is CAPTURED exactly if the last attempt got through to a 200, DECLINED exactly if to a 402. */
  lemma ChargeReads(attempts: nat -> Attempt, options: Options, calls: nat, maxAttempts: int)
    requires LastOf(attempts, options, calls, maxAttempts)
    ensures var last, status := attempts(calls), ChargeOutcome(OutcomeOf(attempts(calls), options)).status;
            && (status == Captured <==>
                  Admitted(last, options) && last.fetched.Value? && last.fetched.value.httpStatus == 200)
            && (status == Declined <==>
                  Admitted(last, options) && last.fetched.Value? && last.fetched.value.httpStatus == 402)
            && (status != Captured && status != Declined ==> status == Unknown)
  {
  }

  /** getStatus() is FAILED exactly if the last attempt got through to a 404, final exactly if to a 200 that says so. */
  lemma StatusReads(attempts: nat -> Attempt, options: Options, calls: nat, maxAttempts: int)
    requires LastOf(attempts, options, calls, maxAttempts)
    ensures var last, status := attempts(calls), StatusOutcome(OutcomeOf(attempts(calls), options)).status;
            && (status == PaymentStatus.Failed <==>
                  Admitted(last, options) && last.fetched.Value? && last.fetched.value.httpStatus == 404)
            && (status == Captured <==>
                  && Admitted(last, options) && last.fetched.Value? && last.fetched.value.httpStatus == 200
                  && last.fetched.value.providerStatus == Some("approved"))
            && (status == Declined <==>
                  && Admitted(last, options) && last.fetched.Value? && last.fetched.value.httpStatus == 200
                  && last.fetched.value.providerStatus == Some("declined"))
            && (status !in {PaymentStatus.Failed, Captured, Declined} ==> status == Unknown)
  {
  }

  /**
   What an attempt makes of the breaker. One rejected counts for nothing; one that got through counts as
   a failure exactly if its fetch threw or met a 5xx, and otherwise clears the counter.
   */
  lemma AttemptCounts(a: Attempt, options: Options)
    ensures var after, others := BreakerAfter(a, options), a.meanwhile;
            && (!Admitted(a, options) ==>
                  && after.failures == a.found.failures && after.openedAt == a.found.openedAt
                  && after.probing == a.found.probing)
            && (Admitted(a, options) ==> after.probing == if a.found.state == CLOSED then others.probing else false)
            && (Admitted(a, options) && (a.fetched.Threw? || a.fetched.value.httpStatus >= 500) ==>
                  if others.state == HALF_OPEN then after.state == OPEN && after.openedAt == Some(a.end)
                  else
                    && after.failures == others.failures + 1
                    && (others.failures + 1 >= options.failureThreshold ==>
                          after.state == OPEN && after.openedAt == Some(a.end))
                    && (others.failures + 1 < options.failureThreshold ==>
                          after.state == others.state && after.openedAt == others.openedAt))
            && (Admitted(a, options) && !(a.fetched.Threw? || a.fetched.value.httpStatus >= 500) ==>
                  && after.failures == 0 && after.openedAt == others.openedAt
                  && after.state == if others.state == HALF_OPEN then CLOSED else others.state)
  {
  }

  /**
   The loop goes on after its n-th attempt exactly if that is not the last allowed, and got through to a
   timeout, a network failure or a 5xx: never after an answer below 500 or a rejection by the breaker.
   */
  lemma RetriedIff(attempts: nat -> Attempt, options: Options, calls: nat, maxAttempts: int, n: nat)
    requires LastOf(attempts, options, calls, maxAttempts) && 1 <= n <= calls
    ensures n < calls <==>
            && n < maxAttempts && Admitted(attempts(n), options)
            && match attempts(n).fetched
               case Value(r) => r.httpStatus >= 500
               case Threw(error) =>
                 error == Timeout || error == ProviderError || error == ConnectionRefused || error == NetworkError
  {
    assert n < calls ==> IsRetryable(OutcomeOf(attempts(n), options));
  }

  /** With the defaults a whole charge takes at most 6600 ms, far inside the grace reconciliation waits. */
  lemma ChargeFitsGrace(elapsed: real)
    requires elapsed <= (MAX_ATTEMPTS * ATTEMPT_TIMEOUT_MS + BACKOFF_BASE_MS * (Pow2(MAX_ATTEMPTS - 1) - 1)) as real
    ensures MAX_ATTEMPTS * ATTEMPT_TIMEOUT_MS + BACKOFF_BASE_MS * (Pow2(MAX_ATTEMPTS - 1) - 1) == 6600
    ensures elapsed <= 6600.0 && elapsed < Protocol.RECONCILIATION_GRACE_MS as real
    ensures MAX_ATTEMPTS == Protocol.MAX_ATTEMPTS
  {
    assert Pow2(2) == 2 * Pow2(1) && Pow2(1) == 2 * Pow2(0);
  }

  // ---------- the adapter over the provider's own store ----------

  function StatusText(verdict: Protocol.ChargeStatus): string {
    if verdict == Protocol.Approved then "approved" else "declined"
  }

  /** A response to POST /charge for the order's key, given by the service at some moment up to j; or 400 on a malformed
      request. */
  ghost predicate PostedBy(stores: seq<ChargeService.Store>, j: nat, o: nat, r: Response) {
    || r.httpStatus == 400
    || exists i: nat, c: nat ::
         i <= j && i < |stores| && RepliedTo(stores[i], c, o)
         && r.httpStatus == ChargeService.PostAnswer(stores[i].calls[c].stage.reply)
  }

  predicate RepliedTo(s: ChargeService.Store, c: nat, o: nat) {
    c in s.calls && s.calls[c].stage.Replied? && s.calls[c].request.key == o
  }

  /** A response to GET /charge/:key read from the store at moment i. */
  predicate ReadAt(s: ChargeService.Store, o: nat, r: Response) {
    && r.httpStatus == ChargeService.GetAnswer(s.records, o)
    && (o in s.records ==> r.providerStatus == Some(StatusText(s.records[o].status)))
  }

  /** A GET tells the store at its moment: FAILED exactly for a key never stored, else the stored verdict. */
  lemma ReadingTells(s: ChargeService.Store, o: nat, r: Response)
    requires ReadAt(s, o, r)
    ensures var status := MapStatusResponse(r).status;
            && (status == PaymentStatus.Failed <==> o !in s.records)
            && (status == Captured <==> o in s.records && s.records[o].status == Protocol.Approved)
            && (status == Declined <==> o in s.records && s.records[o].status == Protocol.Refused)
  {
  }

  lemma PostTellsTheTruth(stores: seq<ChargeService.Store>, steps: seq<ChargeService.Step>, j: nat, o: nat, r: Response)
    requires ChargeService.Run(stores, steps) && j < |stores| && PostedBy(stores, j, o, r)
    ensures Protocol.GatewayMayAnswer(ChargeService.Verdicts(stores[j].records), o, MapChargeResponse(r).status)
  {
    if r.httpStatus != 400 {
      var i: nat, c: nat :|
        i <= j && i < |stores| && RepliedTo(stores[i], c, o)
        && r.httpStatus == ChargeService.PostAnswer(stores[i].calls[c].stage.reply);
      ChargeService.PostTellsTheVerdict(stores, steps, i, j, c);
    }
  }

  /**
   Of the attempts a charge makes, whatever each meets with, the retry loop surfaces the last, and its
   reading is one the order protocol allows on the provider's records, at that moment and ever after.
   Nothing is asked of attempts the loop does not come to.
   */
  lemma ChargeKeepsToTheProtocol(stores: seq<ChargeService.Store>, steps: seq<ChargeService.Step>, j: nat, o: nat,
                                 attempts: nat -> Attempt, calls: nat, maxAttempts: int, options: Options)
    requires ChargeService.Run(stores, steps) && j < |stores| && LastOf(attempts, options, calls, maxAttempts)
    requires forall k | 1 <= k <= calls && Admitted(attempts(k), options) && attempts(k).fetched.Value? ::
               PostedBy(stores, j, o, attempts(k).fetched.value)
    ensures Protocol.GatewayMayAnswer(ChargeService.Verdicts(stores[j].records), o,
                                      ChargeOutcome(OutcomeOf(attempts(calls), options)).status)
    ensures forall n | LastOf(attempts, options, n, maxAttempts) :: n == calls
  {
    if Admitted(attempts(calls), options) && attempts(calls).fetched.Value? {
      PostTellsTheTruth(stores, steps, j, o, attempts(calls).fetched.value);
    }
    forall n | LastOf(attempts, options, n, maxAttempts)
      ensures n == calls
    {
      LastIsUnique(attempts, options, n, calls, maxAttempts);
    }
  }

  /**
   getStatus() likewise, for attempts read from the store at their own moments: a final answer is
   right then and ever after, and FAILED was right when it was read.
   */
  lemma StatusKeepsToTheProtocol(stores: seq<ChargeService.Store>, steps: seq<ChargeService.Step>, moments: nat -> nat,
                                 j: nat, o: nat, attempts: nat -> Attempt, calls: nat, maxAttempts: int,
                                 options: Options)
    requires ChargeService.Run(stores, steps) && j < |stores| && LastOf(attempts, options, calls, maxAttempts)
    requires forall k | 1 <= k <= calls ::
               && moments(k) <= j
               && (Admitted(attempts(k), options) && attempts(k).fetched.Value? ==>
                     ReadAt(stores[moments(k)], o, attempts(k).fetched.value))
    ensures var status := StatusOutcome(OutcomeOf(attempts(calls), options)).status;
            && Protocol.StatusMayAnswer(ChargeService.Verdicts(stores[moments(calls)].records), o, status)
            && (status != PaymentStatus.Failed ==>
                  Protocol.GatewayMayAnswer(ChargeService.Verdicts(stores[j].records), o, status))
  {
    var i := moments(calls);
    if Admitted(attempts(calls), options) && attempts(calls).fetched.Value? {
      assert ReadAt(stores[i], o, attempts(calls).fetched.value);
    }
    if o in stores[i].records {
      ChargeService.RecordsNeverChange(stores, steps, i, j, o);
    }
  }
}
