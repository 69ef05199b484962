/**
 The three-state circuit breaker under overlapping calls. A call runs in pieces: its start, the
 recording of its outcome and, for a probe, the release of the probe flag; other calls run between.
 */
module CircuitBreaker {
  import opened Wrappers

  datatype BreakerState = CLOSED | OPEN | HALF_OPEN

  /** The breaker's fields at one moment. */
  datatype Fields = Fields(state: BreakerState, failures: int, openedAt: Option<int>, probing: bool)
  datatype Options = Options(failureThreshold: int, openMs: int)

  const INITIAL := Fields(CLOSED, 0, None, false)

  datatype Verdict = Rejected | AsCall | AsProbe

  function MaybeHalfOpen(b: Fields, now: int, options: Options): Fields {
    if b.state == OPEN && b.openedAt.Some? && now - b.openedAt.value >= options.openMs
    then b.(state := HALF_OPEN)
    else b
  }

  function Started(b: Fields, now: int, options: Options): (Fields, Verdict) {
    var ready := MaybeHalfOpen(b, now, options);
    if ready.state == OPEN then (ready, Rejected)
    else if ready.state == HALF_OPEN then
      if ready.probing then (ready, Rejected) else (ready.(probing := true), AsProbe)
    else (ready, AsCall)
  }

  function AfterSuccess(b: Fields): Fields {
    b.(failures := 0, state := if b.state == HALF_OPEN then CLOSED else b.state)
  }

  function AfterFailure(b: Fields, now: int, options: Options): Fields {
    if b.state == HALF_OPEN then b.(state := OPEN, openedAt := Some(now))
    else
      var counted := b.(failures := b.failures + 1);
      if counted.failures >= options.failureThreshold then counted.(state := OPEN, openedAt := Some(now)) else counted
  }

  class CircuitBreaker {
    const options: Options
    var currentState: BreakerState
    var consecutiveFailures: int
    var openedAt: Option<int>
    var halfOpenProbeInFlight: bool

    constructor (options: Options)
      ensures this.options == options && Snapshot() == INITIAL
    {
      this.options := options;
      currentState, consecutiveFailures, openedAt, halfOpenProbeInFlight := CLOSED, 0, None, false;
    }

    function Snapshot(): Fields
      reads this
    {
      Fields(currentState, consecutiveFailures, openedAt, halfOpenProbeInFlight)
    }

    /** execute(), up to the operation's first await. */
    method Start(now: int) returns (verdict: Verdict)
      modifies this
      ensures (Snapshot(), verdict) == Started(old(Snapshot()), now, options)
    {
      if openedAt.Some? && now - openedAt.value >= options.openMs && currentState == OPEN {
        currentState := HALF_OPEN;
      }
      if currentState == OPEN {
        return Rejected;
      }
      if currentState == HALF_OPEN {
        if halfOpenProbeInFlight {
          return Rejected;
        }
        halfOpenProbeInFlight := true;
        return AsProbe;
      }
      verdict := AsCall;
    }

    method OnSuccess()
      modifies this
      ensures Snapshot() == AfterSuccess(old(Snapshot()))
    {
      if currentState == HALF_OPEN {
        consecutiveFailures := 0;
        currentState := CLOSED;
        return;
      }
      consecutiveFailures := 0;
    }

    method OnFailure(now: int)
      modifies this
      ensures Snapshot() == AfterFailure(old(Snapshot()), now, options)
    {
      if currentState == HALF_OPEN {
        openedAt := Some(now);
        currentState := OPEN;
        return;
      }
      consecutiveFailures := consecutiveFailures + 1;
      if consecutiveFailures >= options.failureThreshold {
        openedAt := Some(now);
        currentState := OPEN;
      }
    }

    /** The finally block of a probe. */
    method EndProbe()
      modifies this
      ensures Snapshot() == old(Snapshot()).(probing := false)
    {
      halfOpenProbeInFlight := false;
    }

    /** Whatever other callers make of the breaker while this one waits. */
    method Overtaken(others: Fields)
      modifies this
      ensures Snapshot() == others
    {
      currentState, consecutiveFailures, openedAt, halfOpenProbeInFlight :=
          others.state, others.failures, others.openedAt, others.probing;
    }
  }

  // ---------- overlapping calls ----------

  /** A call under way; a probe whose outcome is recorded still holds the flag until its finally block. */
  datatype Call = Ordinary | Probe | ProbeDone

  datatype Event = Begun(at: int) | Success | Failure | Opening(at: int)

  datatype World = World(breaker: Fields, calls: map<nat, Call>, now: int, log: seq<Event>)

  datatype Step = Tick(ms: nat) | Start(call: nat) | Record(call: nat, ok: bool) | Release(call: nat)

  predicate Enabled(w: World, step: Step) {
    match step
    case Tick(_) => true
    case Start(c) => c !in w.calls
    case Record(c, _) => c in w.calls && !w.calls[c].ProbeDone?
    case Release(c) => c in w.calls && w.calls[c].ProbeDone?
  }

  function Drop(calls: map<nat, Call>, c: nat): map<nat, Call> {
    map d | d in calls && d != c :: calls[d]
  }

  function Apply(w: World, step: Step, options: Options): World
    requires Enabled(w, step)
  {
    match step
    case Tick(ms) => w.(now := w.now + ms)
    case Start(c) =>
      var (b, verdict) := Started(w.breaker, w.now, options);
      if verdict == Rejected then w.(breaker := b)
      else w.(breaker := b, calls := w.calls[c := if verdict == AsProbe then Probe else Ordinary],
              log := w.log + [Begun(w.now)])
    case Record(c, ok) =>
      var rest := if w.calls[c].Probe? then w.calls[c := ProbeDone] else Drop(w.calls, c);
      if ok then w.(breaker := AfterSuccess(w.breaker), calls := rest, log := w.log + [Success])
      else
        var b := AfterFailure(w.breaker, w.now, options);
        w.(breaker := b, calls := rest,
           log := w.log + [Failure] +
             if b.state == OPEN && (w.breaker.state == HALF_OPEN || b.failures >= options.failureThreshold)
             then [Opening(w.now)]
             else [])
    case Release(c) => w.(breaker := w.breaker.(probing := false), calls := Drop(w.calls, c))
  }

  ghost predicate Run(worlds: seq<World>, steps: seq<Step>, options: Options) {
    && |worlds| == |steps| + 1
    && worlds[0].breaker == INITIAL && worlds[0].calls == map[] && worlds[0].log == []
    && forall i | 0 <= i < |steps| ::
         Enabled(worlds[i], steps[i]) && worlds[i + 1] == Apply(worlds[i], steps[i], options)
  }

  /** Failures recorded since the last success. */
  function FailuresSinceSuccess(log: seq<Event>): nat {
    if log == [] then 0
    else
      match log[|log| - 1]
      case Success => 0
      case Failure => FailuresSinceSuccess(log[..|log| - 1]) + 1
      case _ => FailuresSinceSuccess(log[..|log| - 1])
  }

  predicate IsProbe(call: Call) {
    call.Probe? || call.ProbeDone?
  }

  /** The flag is up exactly while a probe is under way, and there is one at most. */
  ghost predicate OneProbe(w: World) {
    && (w.breaker.probing <==> exists c :: c in w.calls && IsProbe(w.calls[c]))
    && (forall c, d | c in w.calls && d in w.calls && IsProbe(w.calls[c]) && IsProbe(w.calls[d]) :: c == d)
  }

  /** Every opening so far is covered by openedAt, and unless OPEN its window is over. */
  ghost predicate WindowKept(w: World, options: Options) {
    && (w.breaker.state == OPEN ==> w.breaker.openedAt.Some?)
    && (forall i | 0 <= i < |w.log| && w.log[i].Opening? ::
          w.breaker.openedAt.Some? && w.log[i].at <= w.breaker.openedAt.value <= w.now)
    && (w.breaker.openedAt.Some? && w.breaker.state != OPEN ==> w.now - w.breaker.openedAt.value >= options.openMs)
    && (w.breaker.openedAt.Some? ==> w.breaker.openedAt.value <= w.now)
    && (forall i, j | 0 <= i < j < |w.log| && w.log[i].Opening? && w.log[j].Begun? ::
         w.log[j].at - w.log[i].at >= options.openMs)
  }

  predicate CounterTrue(w: World, options: Options) {
    w.breaker.state == CLOSED ==>
      && w.breaker.failures == FailuresSinceSuccess(w.log)
      && (w.breaker.failures == 0 || w.breaker.failures < options.failureThreshold)
  }

  lemma LogAppend(log: seq<Event>, e: Event)
    ensures FailuresSinceSuccess(log + [e]) ==
            match e
            case Success => 0
            case Failure => FailuresSinceSuccess(log) + 1
            case _ => FailuresSinceSuccess(log)
  {
    assert (log + [e])[..|log|] == log;
  }

  lemma StepKeepsProbe(w: World, step: Step, options: Options)
    requires OneProbe(w) && Enabled(w, step)
    ensures OneProbe(Apply(w, step, options))
  {
    var after := Apply(w, step, options);
    match step
    case Start(c) =>
      if c in after.calls {
        assert IsProbe(after.calls[c]) ==> after.breaker.probing;
        assert forall d | d in w.calls :: after.calls[d] == w.calls[d];
      }
    case Record(c, _) =>
      assert forall d | d in after.calls :: d in w.calls && (IsProbe(after.calls[d]) <==> IsProbe(w.calls[d]));
      assert forall d | d in w.calls && IsProbe(w.calls[d]) :: d in after.calls;
    case _ =>
  }

  lemma StepKeepsWindow(w: World, step: Step, options: Options)
    requires WindowKept(w, options) && Enabled(w, step)
    ensures WindowKept(Apply(w, step, options), options)
  {
  }

  lemma StepKeepsCounter(w: World, step: Step, options: Options)
    requires CounterTrue(w, options) && Enabled(w, step)
    ensures CounterTrue(Apply(w, step, options), options)
  {
    match step
    case Start(c) =>
      LogAppend(w.log, Begun(w.now));
    case Record(c, ok) =>
      if ok {
        LogAppend(w.log, Success);
      } else if w.breaker.state == CLOSED && w.breaker.failures + 1 < options.failureThreshold {
        LogAppend(w.log, Failure);
        assert Apply(w, step, options).log == w.log + [Failure];
      } else {
        assert Apply(w, step, options).breaker.state == OPEN;
      }
    case _ =>
  }

  lemma {:induction false} BreakerAlways(worlds: seq<World>, steps: seq<Step>, options: Options, i: nat)
    requires Run(worlds, steps, options) && i < |worlds|
    ensures OneProbe(worlds[i]) && WindowKept(worlds[i], options) && CounterTrue(worlds[i], options)
  {
    if i > 0 {
      BreakerAlways(worlds, steps, options, i - 1);
      StepKeepsProbe(worlds[i - 1], steps[i - 1], options);
      StepKeepsWindow(worlds[i - 1], steps[i - 1], options);
      StepKeepsCounter(worlds[i - 1], steps[i - 1], options);
    }
  }

  /** At most one probe is in flight, whatever calls begun while closed do to the state meanwhile. */
  lemma AtMostOneProbe(worlds: seq<World>, steps: seq<Step>, options: Options, i: nat, c: nat, d: nat)
    requires Run(worlds, steps, options) && i < |worlds|
    requires c in worlds[i].calls && d in worlds[i].calls && IsProbe(worlds[i].calls[c]) && IsProbe(worlds[i].calls[d])
    ensures c == d
  {
    BreakerAlways(worlds, steps, options, i);
  }

  /** After any opening, no operation begins before openMs have passed. */
  lemma NothingBeginsTooSoon(worlds: seq<World>, steps: seq<Step>, options: Options, i: nat, a: nat, b: nat)
    requires Run(worlds, steps, options) && i < |worlds| && a < b < |worlds[i].log|
    requires worlds[i].log[a].Opening? && worlds[i].log[b].Begun?
    ensures worlds[i].log[b].at - worlds[i].log[a].at >= options.openMs
  {
    BreakerAlways(worlds, steps, options, i);
  }

  /** While closed, the counter is the failures since the last success and short of the threshold. */
  lemma ClosedCounter(worlds: seq<World>, steps: seq<Step>, options: Options, i: nat)
    requires Run(worlds, steps, options) && i < |worlds| && worlds[i].breaker.state == CLOSED
    ensures worlds[i].breaker.failures == FailuresSinceSuccess(worlds[i].log)
    ensures options.failureThreshold >= 1 ==> worlds[i].breaker.failures < options.failureThreshold
  {
    BreakerAlways(worlds, steps, options, i);
  }

  /** The breaker never locks up: once the window is over and no probe is out, a call gets through. */
  lemma NeverLockedOut(worlds: seq<World>, steps: seq<Step>, options: Options, i: nat)
    requires Run(worlds, steps, options) && i < |worlds|
    requires forall c | c in worlds[i].calls :: worlds[i].calls[c] == Ordinary
    requires worlds[i].breaker.openedAt.Some? ==> worlds[i].now - worlds[i].breaker.openedAt.value >= options.openMs
    ensures Started(worlds[i].breaker, worlds[i].now, options).1 != Rejected
  {
    BreakerAlways(worlds, steps, options, i);
  }

  // ---------- what opens and closes it ----------

  lemma {:induction false} LogGrows(worlds: seq<World>, steps: seq<Step>, options: Options, i: nat, j: nat)
    requires Run(worlds, steps, options) && i <= j < |worlds|
    ensures worlds[i].log <= worlds[j].log
  {
    if i < j {
      LogGrows(worlds, steps, options, i, j - 1);
      assert worlds[j - 1].log <= Apply(worlds[j - 1], steps[j - 1], options).log;
    }
  }

  /** Short of the threshold since every success so far. */
  ghost predicate NeverReached(log: seq<Event>, threshold: int) {
    forall n | 0 <= n <= |log| :: FailuresSinceSuccess(log[..n]) < threshold
  }

  lemma NeverReachedBefore(log: seq<Event>, longer: seq<Event>, threshold: int)
    requires log <= longer && NeverReached(longer, threshold)
    ensures NeverReached(log, threshold)
  {
    forall n | 0 <= n <= |log|
      ensures FailuresSinceSuccess(log[..n]) < threshold
    {
      assert log[..n] == longer[..n];
    }
  }

  /** A breaker that never saw as many failures without a success between them as the threshold is closed. */
  lemma {:induction false} FewFailuresKeepItClosed(worlds: seq<World>, steps: seq<Step>, options: Options, i: nat)
    requires Run(worlds, steps, options) && i < |worlds|
    requires forall n | 0 <= n <= |worlds[i].log| :: FailuresSinceSuccess(worlds[i].log[..n]) < options.failureThreshold
    ensures worlds[i].breaker.state == CLOSED
  {
    if i > 0 {
      LogGrows(worlds, steps, options, i - 1, i);
      NeverReachedBefore(worlds[i - 1].log, worlds[i].log, options.failureThreshold);
      FewFailuresKeepItClosed(worlds, steps, options, i - 1);
      BreakerAlways(worlds, steps, options, i - 1);
      StaysClosed(worlds[i - 1], steps[i - 1], options);
    }
  }

  lemma StaysClosed(w: World, step: Step, options: Options)
    requires Enabled(w, step) && w.breaker.state == CLOSED && CounterTrue(w, options)
    requires NeverReached(Apply(w, step, options).log, options.failureThreshold)
    ensures Apply(w, step, options).breaker.state == CLOSED
  {
    var after := Apply(w, step, options);
    if step.Record? && !step.ok {
      LogAppend(w.log, Failure);
      assert after.log[..|w.log| + 1] == w.log + [Failure];
    }
  }

  /** In a closed breaker a failure opens it exactly if it is the last one short of the threshold. */
  lemma FailureOpensIff(worlds: seq<World>, steps: seq<Step>, options: Options, i: nat, c: nat)
    requires Run(worlds, steps, options) && i < |steps| && steps[i] == Record(c, false)
    requires worlds[i].breaker.state == CLOSED
    ensures var after := worlds[i + 1].breaker;
            && (after.state == OPEN <==> FailuresSinceSuccess(worlds[i].log) + 1 >= options.failureThreshold)
            && (after.state == CLOSED || (after.state == OPEN && after.openedAt == Some(worlds[i].now)))
  {
    BreakerAlways(worlds, steps, options, i);
  }

  /** Half-open, the outcome of any call decides: a success closes the breaker, a failure opens it for a full window. */
  lemma HalfOpenIsDecided(worlds: seq<World>, steps: seq<Step>, options: Options, i: nat, c: nat, ok: bool)
    requires Run(worlds, steps, options) && i < |steps| && steps[i] == Record(c, ok)
    requires worlds[i].breaker.state == HALF_OPEN
    ensures var after := worlds[i + 1].breaker;
            if ok then after.state == CLOSED && after.failures == 0
            else after.state == OPEN && after.openedAt == Some(worlds[i].now)
  {
  }
}
