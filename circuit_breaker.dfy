/**
 * The circuit breaker that wraps calls to the NLP, OCR, scraper and AI
 * services. CLOSED admits every call; enough failures inside the sliding
 * window open it; after the recovery timeout one call is let through and the
 * breaker becomes HALF_OPEN, where a bounded number of trial calls decide
 * between closing again and reopening.
 *
 * `BreakerState` is the runtime-state record and the functions over it give
 * the meaning of each operation; the class `Breaker` performs the same
 * operations on its own fields and is proved to agree with them.
 */
module CircuitBreaker {
  import opened Wrappers

  datatype CircuitState = Closed | Open | HalfOpen

  function StateName(s: CircuitState): string
  {
    match s
    case Closed => "closed"
    case Open => "open"
    case HalfOpen => "half_open"
  }

  datatype BreakerConfig = BreakerConfig(
    failureThreshold: int,
    recoveryTimeout: int,
    halfOpenMaxCalls: nat,
    successThreshold: int,
    windowSize: int)

  /** The constructor sets the failure threshold and recovery timeout; the rest keep their defaults. */
  function MakeConfig(failureThreshold: int, recoveryTimeout: int): (c: BreakerConfig)
    ensures c.failureThreshold == failureThreshold && c.recoveryTimeout == recoveryTimeout
    ensures c.halfOpenMaxCalls == 3 && c.successThreshold == 2 && c.windowSize == 60
  {
    BreakerConfig(failureThreshold, recoveryTimeout, 3, 2, 60)
  }

  /** The failure deque holds at most this many timestamps. */
  const WindowCap: nat := 100

  datatype BreakerState = BreakerState(
    state: CircuitState,
    failureCount: nat,
    successCount: nat,
    lastFailureTime: Option<int>,
    lastStateChange: int,
    halfOpenCalls: nat,
    failureTimes: seq<int>)

  predicate WellFormed(s: BreakerState, cfg: BreakerConfig)
  {
    |s.failureTimes| <= WindowCap && s.halfOpenCalls <= cfg.halfOpenMaxCalls
  }

  function InitialState(now: int): (s: BreakerState)
    ensures s.state == Closed && s.failureCount == 0 && s.successCount == 0 && s.halfOpenCalls == 0
    ensures s.lastFailureTime.None? && s.failureTimes == [] && s.lastStateChange == now
  {
    BreakerState(Closed, 0, 0, None, now, 0, [])
  }

  /** `deque(maxlen=100).append(t)`: when full, the oldest timestamp is dropped. */
  function AppendCapped(times: seq<int>, t: int): (r: seq<int>)
    ensures |r| == (if |times| < WindowCap then |times| + 1 else WindowCap)
    ensures r[|r| - 1] == t
    ensures forall i :: 0 <= i < |r| - 1 ==> r[i] == times[|times| + 1 - |r| + i]
  {
    if |times| >= WindowCap then times[|times| - (WindowCap - 1)..] + [t] else times + [t]
  }

  /** The window after popping, from the front, every timestamp older than `cutoff`. */
  function Pruned(times: seq<int>, cutoff: int): (r: seq<int>)
    ensures |r| <= |times|
    ensures forall i :: 0 <= i < |r| ==> r[i] == times[|times| - |r| + i]
    ensures r != [] ==> r[0] >= cutoff
    ensures forall i :: 0 <= i < |times| - |r| ==> times[i] < cutoff
  {
    if times != [] && times[0] < cutoff then Pruned(times[1..], cutoff) else times
  }

  /** Pruning stops at a window whose oldest timestamp is not older than the cutoff. */
  lemma PrunedAtRest(times: seq<int>, cutoff: int)
    requires times == [] || times[0] >= cutoff
    ensures Pruned(times, cutoff) == times
  {
  }

  /** The pruned state is the state with the pruned window put back. */
  lemma PrunedStateIs(s: BreakerState, cfg: BreakerConfig, now: int, times: seq<int>)
    requires times == Pruned(s.failureTimes, now - cfg.windowSize)
    ensures s.(failureTimes := times) == PrunedState(s, cfg, now)
  {
  }

  /** A window whose newest timestamp is not older than the cutoff keeps that timestamp last. */
  lemma PrunedKeepsNewest(times: seq<int>, cutoff: int)
    requires times != [] && times[|times| - 1] >= cutoff
    ensures Pruned(times, cutoff) != []
    ensures Pruned(times, cutoff)[|Pruned(times, cutoff)| - 1] == times[|times| - 1]
  {
  }

  function ShouldAttemptReset(s: BreakerState, cfg: BreakerConfig, now: int): (b: bool)
    ensures b <==> s.lastFailureTime.None? || now - s.lastFailureTime.value >= cfg.recoveryTimeout
  {
    match s.lastFailureTime
    case None => true
    case Some(t) => now - t >= cfg.recoveryTimeout
  }

  /**
   * `_transition_to`: entering CLOSED zeroes both counters, entering HALF_OPEN
   * zeroes the trial-call and success counters, entering OPEN resets nothing;
   * the failure window and the last failure time are never touched.
   */
  function TransitionTo(s: BreakerState, target: CircuitState, now: int): (r: BreakerState)
    ensures r.state == target && r.lastStateChange == now
    ensures r.failureTimes == s.failureTimes && r.lastFailureTime == s.lastFailureTime
    ensures r.failureCount == (if target == Closed then 0 else s.failureCount)
    ensures r.successCount == (if target == Open then s.successCount else 0)
    ensures r.halfOpenCalls == (if target == HalfOpen then 0 else s.halfOpenCalls)
  {
    var t := s.(state := target, lastStateChange := now);
    match target
    case Closed => t.(failureCount := 0, successCount := 0)
    case HalfOpen => t.(halfOpenCalls := 0, successCount := 0)
    case Open => t
  }

  /** `_record_success`. */
  function AfterSuccess(s: BreakerState, cfg: BreakerConfig, now: int): (r: BreakerState)
    ensures r.failureTimes == s.failureTimes && r.lastFailureTime == s.lastFailureTime
    ensures s.state != HalfOpen ==> r == s.(failureCount := 0)
    ensures s.state == HalfOpen && s.successCount + 1 >= cfg.successThreshold ==>
      r.state == Closed && r.failureCount == 0 && r.successCount == 0 && r.lastStateChange == now
    ensures s.state == HalfOpen && s.successCount + 1 < cfg.successThreshold ==>
      r == s.(successCount := s.successCount + 1)
  {
    if s.state == HalfOpen then
      var t := s.(successCount := s.successCount + 1);
      if t.successCount >= cfg.successThreshold then TransitionTo(t, Closed, now) else t
    else s.(failureCount := 0)
  }

  /** The failure window as `_record_failure` leaves it: appended, and pruned unless HALF_OPEN. */
  function FailureWindow(s: BreakerState, cfg: BreakerConfig, now: int): seq<int>
  {
    var appended := AppendCapped(s.failureTimes, now);
    if s.state == HalfOpen then appended else Pruned(appended, now - cfg.windowSize)
  }

  /** The bookkeeping every failure does before any transition: the timestamp, the last failure time and the count. */
  function Noted(s: BreakerState, now: int): (r: BreakerState)
    ensures r.state == s.state && r.failureCount == s.failureCount + 1 && r.lastFailureTime == Some(now)
    ensures r.failureTimes == AppendCapped(s.failureTimes, now)
    ensures r.successCount == s.successCount && r.halfOpenCalls == s.halfOpenCalls
  {
    s.(failureTimes := AppendCapped(s.failureTimes, now), lastFailureTime := Some(now),
       failureCount := s.failureCount + 1)
  }

  /** Opening once the pruned window holds `failure_threshold` failures. */
  function Escalate(t: BreakerState, cfg: BreakerConfig, now: int): BreakerState
  {
    if |t.failureTimes| >= cfg.failureThreshold then TransitionTo(t, Open, now) else t
  }

  /** The state with its window pruned to the last `window_size` seconds. */
  function PrunedState(t: BreakerState, cfg: BreakerConfig, now: int): BreakerState
  {
    t.(failureTimes := Pruned(t.failureTimes, now - cfg.windowSize))
  }

  /** `_record_failure`. */
  function AfterFailure(s: BreakerState, cfg: BreakerConfig, now: int): BreakerState
  {
    var t := Noted(s, now);
    if t.state == HalfOpen then TransitionTo(t, Open, now)
    else Escalate(PrunedState(t, cfg, now), cfg, now)
  }

  /**
   * What `_record_failure` leaves behind: the failure recorded in the window,
   * the last failure time and the count; HALF_OPEN reopens; otherwise the
   * breaker opens once the pruned window reaches the threshold; it never closes.
   */
  lemma AfterFailureMeans(s: BreakerState, cfg: BreakerConfig, now: int)
    ensures var r := AfterFailure(s, cfg, now);
      r.failureTimes == FailureWindow(s, cfg, now) && |r.failureTimes| <= WindowCap
    ensures var r := AfterFailure(s, cfg, now);
      cfg.windowSize >= 0 ==> |r.failureTimes| > 0 && r.failureTimes[|r.failureTimes| - 1] == now
    ensures var r := AfterFailure(s, cfg, now);
      r.lastFailureTime == Some(now) && r.failureCount == s.failureCount + 1
    ensures var r := AfterFailure(s, cfg, now);
      r.successCount == s.successCount && r.halfOpenCalls == s.halfOpenCalls
    ensures s.state == HalfOpen ==> AfterFailure(s, cfg, now).state == Open
    ensures var r := AfterFailure(s, cfg, now);
      s.state != HalfOpen ==> (r.state == Open <==> s.state == Open || |r.failureTimes| >= cfg.failureThreshold)
    ensures AfterFailure(s, cfg, now).state == Closed ==> s.state == Closed
  {
    var t := Noted(s, now);
    var r := AfterFailure(s, cfg, now);
    if s.state == HalfOpen {
      assert r == TransitionTo(t, Open, now);
    } else {
      var p := PrunedState(t, cfg, now);
      assert r == Escalate(p, cfg, now);
      assert r.failureTimes == p.failureTimes;
      if cfg.windowSize >= 0 {
        PrunedKeepsNewest(t.failureTimes, now - cfg.windowSize);
      }
    }
  }

  /** `_record_failure` in HALF_OPEN: the breaker reopens. */
  lemma AfterFailureHalfOpen(s: BreakerState, cfg: BreakerConfig, now: int)
    requires s.state == HalfOpen
    ensures AfterFailure(s, cfg, now) == TransitionTo(Noted(s, now), Open, now)
  {
  }

  /** `_record_failure` otherwise: the window is pruned, and the breaker opens at the threshold. */
  lemma AfterFailurePruned(s: BreakerState, cfg: BreakerConfig, now: int)
    requires s.state != HalfOpen
    ensures AfterFailure(s, cfg, now) == Escalate(PrunedState(Noted(s, now), cfg, now), cfg, now)
  {
  }

  /** `_can_execute`: whether the call may run, and the state it leaves behind. */
  function CanExecute(s: BreakerState, cfg: BreakerConfig, now: int): (r: (bool, BreakerState))
    ensures s.state == Closed ==> r == (true, s)
    ensures s.state == Open && ShouldAttemptReset(s, cfg, now) ==> r == (true, TransitionTo(s, HalfOpen, now))
    ensures s.state == Open && !ShouldAttemptReset(s, cfg, now) ==> r == (false, s)
    ensures s.state == HalfOpen && s.halfOpenCalls < cfg.halfOpenMaxCalls ==>
      r == (true, s.(halfOpenCalls := s.halfOpenCalls + 1))
    ensures s.state == HalfOpen && s.halfOpenCalls >= cfg.halfOpenMaxCalls ==> r == (false, s)
  {
    match s.state
    case Closed => (true, s)
    case Open => if ShouldAttemptReset(s, cfg, now) then (true, TransitionTo(s, HalfOpen, now)) else (false, s)
    case HalfOpen =>
      if s.halfOpenCalls < cfg.halfOpenMaxCalls then (true, s.(halfOpenCalls := s.halfOpenCalls + 1))
      else (false, s)
  }

  /** What the wrapped function did when it was run. */
  datatype CallResult<T> = Returned(value: T) | Raised(error: string)

  /** What the protected wrapper hands back to its caller. */
  datatype Outcome<T> = Value(value: T) | Fallback(value: T) | RejectedOpen | Reraised(error: string)

  /**
   * `protect`'s wrapper: a rejected call is never run and yields the fallback
   * or CircuitBreakerOpen; an admitted call that raises is recorded as a
   * failure before the fallback or the re-raise; one that returns is recorded
   * as a success. `finishedAt` is the clock when the wrapped call ended.
   */
  function Protect<T>(s: BreakerState, cfg: BreakerConfig, hasFallback: bool, now: int, finishedAt: int,
                      call: CallResult<T>, fallbackValue: T): (r: (Outcome<T>, bool, BreakerState))
    ensures !CanExecute(s, cfg, now).0 ==>
      r.1 == false && r.2 == CanExecute(s, cfg, now).1 &&
      r.0 == (if hasFallback then Fallback(fallbackValue) else RejectedOpen)
    ensures CanExecute(s, cfg, now).0 && call.Raised? ==>
      r.1 && r.2 == AfterFailure(CanExecute(s, cfg, now).1, cfg, finishedAt) &&
      r.0 == (if hasFallback then Fallback(fallbackValue) else Reraised(call.error))
    ensures CanExecute(s, cfg, now).0 && call.Returned? ==>
      r == (Value(call.value), true, AfterSuccess(CanExecute(s, cfg, now).1, cfg, finishedAt))
  {
    var (ok, s1) := CanExecute(s, cfg, now);
    if !ok then
      (if hasFallback then Fallback(fallbackValue) else RejectedOpen, false, s1)
    else match call
      case Returned(v) => (Value(v), true, AfterSuccess(s1, cfg, finishedAt))
      case Raised(e) => (if hasFallback then Fallback(fallbackValue) else Reraised(e), true, AfterFailure(s1, cfg, finishedAt))
  }

  // ---------------------------------------------------------------- properties

  /** Every operation keeps the window within its cap and the trial counter within its maximum. */
  lemma OperationsKeepWellFormed(s: BreakerState, cfg: BreakerConfig, now: int)
    requires WellFormed(s, cfg)
    ensures WellFormed(AfterSuccess(s, cfg, now), cfg)
    ensures WellFormed(AfterFailure(s, cfg, now), cfg)
    ensures WellFormed(CanExecute(s, cfg, now).1, cfg)
  {
    AfterFailureMeans(s, cfg, now);
  }

  /** The number of calls admitted by successive admission checks at the given times. */
  function Admitted(s: BreakerState, cfg: BreakerConfig, times: seq<int>): nat
    decreases |times|
  {
    if times == [] then 0
    else
      var (ok, s1) := CanExecute(s, cfg, times[0]);
      (if ok then 1 else 0) + Admitted(s1, cfg, times[1..])
  }

  /** In HALF_OPEN, with no outcome recorded in between, at most `halfOpenMaxCalls - halfOpenCalls` more calls get in. */
  lemma {:induction false} HalfOpenAdmissionsBounded(s: BreakerState, cfg: BreakerConfig, times: seq<int>)
    requires s.state == HalfOpen && s.halfOpenCalls <= cfg.halfOpenMaxCalls
    ensures Admitted(s, cfg, times) <= cfg.halfOpenMaxCalls - s.halfOpenCalls
    decreases |times|
  {
    if times != [] {
      HalfOpenAdmissionsBounded(CanExecute(s, cfg, times[0]).1, cfg, times[1..]);
    }
  }

  /**
   * An OPEN breaker admits at most `halfOpenMaxCalls + 1` calls before some
   * outcome is recorded: the call that moves it to HALF_OPEN is not counted
   * against the trial budget.
   */
  lemma {:induction false} HalfOpenEpisodeBounded(s: BreakerState, cfg: BreakerConfig, times: seq<int>)
    requires s.state == Open
    ensures Admitted(s, cfg, times) <= cfg.halfOpenMaxCalls + 1
    decreases |times|
  {
    if times != [] {
      var (ok, s1) := CanExecute(s, cfg, times[0]);
      if ok {
        HalfOpenAdmissionsBounded(s1, cfg, times[1..]);
      } else {
        HalfOpenEpisodeBounded(s1, cfg, times[1..]);
      }
    }
  }

  /** The bound is reached: right after the recovery timeout, `halfOpenMaxCalls + 1` checks are all admitted. */
  lemma {:induction false} HalfOpenEpisodeFull(s: BreakerState, cfg: BreakerConfig, now: int, k: nat)
    requires s.state == HalfOpen && s.halfOpenCalls + k <= cfg.halfOpenMaxCalls
    ensures Admitted(s, cfg, seq(k, _ => now)) == k
    decreases k
  {
    if k > 0 {
      var times := seq(k, _ => now);
      assert times[1..] == seq(k - 1, _ => now);
      HalfOpenEpisodeFull(CanExecute(s, cfg, now).1, cfg, now, k - 1);
    }
  }

  /** Successive successes in HALF_OPEN close the breaker exactly when the success count reaches the threshold. */
  function AfterSuccesses(s: BreakerState, cfg: BreakerConfig, now: int, k: nat): BreakerState
    decreases k
  {
    if k == 0 then s else AfterSuccesses(AfterSuccess(s, cfg, now), cfg, now, k - 1)
  }

  lemma {:induction false} SuccessesClose(s: BreakerState, cfg: BreakerConfig, now: int, k: nat)
    requires s.state == HalfOpen && k >= 1
    requires s.successCount + k == cfg.successThreshold
    ensures AfterSuccesses(s, cfg, now, k).state == Closed
    ensures AfterSuccesses(s, cfg, now, k).failureCount == 0
    decreases k
  {
    var s1 := AfterSuccess(s, cfg, now);
    assert AfterSuccesses(s, cfg, now, k) == AfterSuccesses(s1, cfg, now, k - 1);
    if k > 1 {
      SuccessesClose(s1, cfg, now, k - 1);
    } else {
      assert AfterSuccesses(s1, cfg, now, 0) == s1;
    }
  }

  /** Pruning keeps a window whose timestamps are all at or after the cutoff. */
  lemma PrunedKeepsRecent(times: seq<int>, cutoff: int)
    requires forall i :: 0 <= i < |times| ==> times[i] >= cutoff
    ensures Pruned(times, cutoff) == times
  {
  }

  /** From CLOSED, `failureThreshold` failures inside one window open the breaker. */
  lemma FailuresOpen(s: BreakerState, cfg: BreakerConfig, now: int)
    requires s.state == Closed && WellFormed(s, cfg)
    requires 1 <= cfg.failureThreshold <= WindowCap && cfg.windowSize >= 0
    requires |s.failureTimes| + 1 >= cfg.failureThreshold
    requires forall i :: 0 <= i < |s.failureTimes| ==> s.failureTimes[i] >= now - cfg.windowSize
    ensures AfterFailure(s, cfg, now).state == Open
  {
    var w := AppendCapped(s.failureTimes, now);
    var cutoff := now - cfg.windowSize;
    var all := s.failureTimes + [now];
    assert forall i :: 0 <= i < |all| ==> all[i] >= cutoff;
    assert forall i :: 0 <= i < |w| ==> w[i] == all[|all| - |w| + i];
    PrunedKeepsRecent(w, cutoff);
    assert FailureWindow(s, cfg, now) == w;
    AfterFailureMeans(s, cfg, now);
  }

  // --------------------------------------------------------------- the class

  class Breaker {
    const name: string
    const config: BreakerConfig
    const hasFallback: bool
    var state: CircuitState
    var failureCount: nat
    var successCount: nat
    var lastFailureTime: Option<int>
    var lastStateChange: int
    var halfOpenCalls: nat
    var failureTimes: seq<int>

    function Snapshot(): BreakerState
      reads this
    {
      BreakerState(state, failureCount, successCount, lastFailureTime, lastStateChange, halfOpenCalls, failureTimes)
    }

    ghost predicate Valid()
      reads this
    {
      WellFormed(Snapshot(), config)
    }

    constructor (name: string, failureThreshold: int, recoveryTimeout: int, hasFallback: bool, now: int)
      ensures Valid() && this.name == name && this.hasFallback == hasFallback
      ensures config == MakeConfig(failureThreshold, recoveryTimeout)
      ensures Snapshot() == InitialState(now)
    {
      this.name := name;
      config := MakeConfig(failureThreshold, recoveryTimeout);
      this.hasFallback := hasFallback;
      state, failureCount, successCount := Closed, 0, 0;
      lastFailureTime, lastStateChange, halfOpenCalls := None, now, 0;
      failureTimes := [];
    }

    method CountRecentFailures(now: int) returns (n: nat)
      requires Valid()
      modifies this
      ensures Valid()
      ensures Snapshot() == PrunedState(old(Snapshot()), config, now)
      ensures n == |failureTimes|
    {
      var cutoff := now - config.windowSize;
      var times := failureTimes;
      while times != [] && times[0] < cutoff
        invariant Pruned(times, cutoff) == Pruned(failureTimes, cutoff)
        invariant |times| <= |failureTimes|
        decreases |times|
      {
        times := times[1..];
      }
      PrunedAtRest(times, cutoff);
      PrunedStateIs(Snapshot(), config, now, times);
      failureTimes := times;
      n := |failureTimes|;
    }

    method Transition(target: CircuitState, now: int)
      modifies this
      ensures Snapshot() == TransitionTo(old(Snapshot()), target, now)
    {
      state := target;
      lastStateChange := now;
      if target == Closed {
        failureCount, successCount := 0, 0;
      } else if target == HalfOpen {
        halfOpenCalls, successCount := 0, 0;
      }
    }

    method RecordSuccess(now: int)
      requires Valid()
      modifies this
      ensures Valid()
      ensures Snapshot() == AfterSuccess(old(Snapshot()), config, now)
    {
      if state == HalfOpen {
        successCount := successCount + 1;
        if successCount >= config.successThreshold {
          Transition(Closed, now);
        }
      } else {
        failureCount := 0;
      }
    }

    /** The bookkeeping `_record_failure` does before deciding on a transition. */
    method NoteFailure(now: int)
      requires Valid()
      modifies this
      ensures Valid()
      ensures Snapshot() == Noted(old(Snapshot()), now)
    {
      failureTimes := AppendCapped(failureTimes, now);
      lastFailureTime := Some(now);
      failureCount := failureCount + 1;
    }

    method RecordFailure(now: int)
      requires Valid()
      modifies this
      ensures Valid()
      ensures Snapshot() == AfterFailure(old(Snapshot()), config, now)
    {
      ghost var s0 := Snapshot();
      OperationsKeepWellFormed(s0, config, now);
      NoteFailure(now);
      ghost var t := Snapshot();
      if state == HalfOpen {
        AfterFailureHalfOpen(s0, config, now);
        Transition(Open, now);
      } else {
        var recent := CountRecentFailures(now);
        AfterFailurePruned(s0, config, now);
        if recent >= config.failureThreshold {
          Transition(Open, now);
        }
      }
    }

    method CanExecuteNow(now: int) returns (ok: bool)
      requires Valid()
      modifies this
      ensures Valid()
      ensures (ok, Snapshot()) == CanExecute(old(Snapshot()), config, now)
    {
      if state == Closed {
        ok := true;
      } else if state == Open {
        ok := ShouldAttemptReset(Snapshot(), config, now);
        if ok {
          Transition(HalfOpen, now);
        }
      } else {
        ok := halfOpenCalls < config.halfOpenMaxCalls;
        if ok {
          halfOpenCalls := halfOpenCalls + 1;
        }
      }
    }

    /** Runs one call through the breaker; `invoked` tells whether the wrapped function ran. */
    method ProtectCall<T>(now: int, finishedAt: int, call: CallResult<T>, fallbackValue: T)
      returns (outcome: Outcome<T>, invoked: bool)
      requires Valid()
      modifies this
      ensures Valid()
      ensures (outcome, invoked, Snapshot()) == Protect(old(Snapshot()), config, hasFallback, now, finishedAt, call, fallbackValue)
    {
      invoked := CanExecuteNow(now);
      if !invoked {
        outcome := if hasFallback then Fallback(fallbackValue) else RejectedOpen;
        return;
      }
      match call
      case Returned(v) =>
        RecordSuccess(finishedAt);
        outcome := Value(v);
      case Raised(e) =>
        RecordFailure(finishedAt);
        outcome := if hasFallback then Fallback(fallbackValue) else Reraised(e);
    }
  }

  datatype Preset = NlpService | OcrService | ScraperService | AiService

  /** The four breakers created at import: name, thresholds and whether a fallback is attached. */
  function PresetSettings(p: Preset): (r: (string, BreakerConfig, bool))
    ensures p == ScraperService ==> r.1 == MakeConfig(10, 120)
    ensures p != ScraperService ==> r.1 == MakeConfig(5, 60)
    ensures r.2 <==> p != AiService
  {
    match p
    case NlpService => ("nlp_service", MakeConfig(5, 60), true)
    case OcrService => ("ocr_service", MakeConfig(5, 60), true)
    case ScraperService => ("scraper_service", MakeConfig(10, 120), true)
    case AiService => ("ai_service", MakeConfig(5, 60), false)
  }
}
