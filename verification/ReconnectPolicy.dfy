// DefaultReconnectPolicy.ts: capped exponential backoff inside a time budget, with suspended
// (sleep) time credited back.
module ReconnectPolicy {
  import opened Prelude

  datatype PolicyConfig = PolicyConfig(
    baseMs: nat,
    maxMs: nat,
    exponential: bool,
    fullJitter: bool,
    maxElapsedMs: nat)

  // The value of one `random()` call.
  type Draw = r: real | 0.0 <= r < 1.0 witness 0.0

  datatype Decision =
    | Scheduled(attempt: nat, delayMs: nat, elapsedMs: int)
    | Exhausted(elapsedMs: int, maxElapsedMs: nat)

  function Max(a: int, b: int): int { if a < b then b else a }

  function Min(a: nat, b: nat): nat { if a < b then a else b }

  function Pow2(n: nat): nat
  {
    if n == 0 then 1 else 2 * Pow2(n - 1)
  }

  // The longest delay the n-th attempt of a window may get.
  function Cap(config: PolicyConfig, n: nat): nat
    requires n >= 1
  {
    if config.exponential then Min(config.baseMs * Pow2(n - 1), config.maxMs)
    else Min(config.baseMs, config.maxMs)
  }

  // floor(draw * (cap + 1)) never exceeds the cap.
  function JitterDelay(cap: nat, draw: Draw): (delay: nat)
    ensures delay <= cap
    ensures delay as real <= draw * (cap + 1) as real < (delay + 1) as real
  {
    var scaled := draw * (cap + 1) as real;
    assert 0.0 <= scaled < (cap + 1) as real;
    scaled.Floor
  }

  function Delay(config: PolicyConfig, n: nat, draw: Draw): (delay: nat)
    requires n >= 1
    ensures delay <= Cap(config, n)
    ensures !config.fullJitter ==> delay == Cap(config, n)
  {
    if config.fullJitter then JitterDelay(Cap(config, n), draw) else Cap(config, n)
  }

  /** The policy's fields, plus `granted`: the delays handed out since the last reset, which is what
      one reconnect window is. */
  datatype Policy = Policy(
    attempt: nat,
    windowStartedAt: Option<int>,
    suspendedMs: int,
    granted: seq<nat>)
  {
    function Elapsed(now: int): int {
      Max(0, now - (if windowStartedAt.Some? then windowStartedAt.value else now) - suspendedMs)
    }

    function StartWindow(now: int): Policy {
      if windowStartedAt.None? then this.(windowStartedAt := Some(now)) else this
    }

    function RecordSuspended(durationMs: int): Policy {
      this.(suspendedMs := suspendedMs + Max(0, durationMs))
    }

    function DecideNext(config: PolicyConfig, now: int, draw: Draw): Decision {
      var elapsed := StartWindow(now).Elapsed(now);
      if elapsed >= config.maxElapsedMs then Exhausted(elapsed, config.maxElapsedMs)
      else
        var delay := Delay(config, attempt + 1, draw);
        if elapsed + delay >= config.maxElapsedMs then Exhausted(elapsed, config.maxElapsedMs)
        else Scheduled(attempt + 1, delay, elapsed)
    }

    // The attempt counter moves even when the computed delay no longer fits the budget.
    function AfterNext(config: PolicyConfig, now: int, draw: Draw): Policy {
      var started := StartWindow(now);
      if started.Elapsed(now) >= config.maxElapsedMs then started
      else
        var decision := DecideNext(config, now, draw);
        started.(attempt := attempt + 1,
        granted := if decision.Scheduled? then granted + [decision.delayMs] else granted)
    }

    predicate IsExhausted(config: PolicyConfig, now: int) {
      StartWindow(now).Elapsed(now) >= config.maxElapsedMs
    }
  }

  const FRESH_POLICY := Policy(0, None, 0, [])

  function Sum(delays: seq<nat>): nat
  {
    if delays == [] then 0 else Sum(delays[..|delays| - 1]) + delays[|delays| - 1]
  }

  lemma SumAppend(delays: seq<nat>, delay: nat)
    ensures Sum(delays + [delay]) == Sum(delays) + delay
  {
    assert (delays + [delay])[..|delays|] == delays;
  }

  /** Every delay of a list at least `least` long: the list is shorter than its sum divided by it. */
  lemma {:induction false} CountTimesLeast(delays: seq<nat>, least: nat)
    requires forall i :: 0 <= i < |delays| ==> delays[i] >= least
    ensures |delays| * least <= Sum(delays)
    decreases |delays|
  {
    if delays != [] {
      var front := delays[..|delays| - 1];
      CountTimesLeast(front, least);
      assert |delays| * least == |front| * least + least;
    }
  }

  lemma {:induction false} Pow2Positive(n: nat)
    ensures Pow2(n) >= 1
  {
    if n > 0 {
      Pow2Positive(n - 1);
    }
  }

  // Without jitter no delay drops below the smaller of base and cap.
  lemma CapAtLeast(config: PolicyConfig, n: nat)
    requires n >= 1
    ensures Cap(config, n) >= Min(config.baseMs, config.maxMs)
  {
    Pow2Positive(n - 1);
    assert config.baseMs * Pow2(n - 1) >= config.baseMs;
  }

  // The time a window that began at `start` has used up by `now`, with `suspended` of it taken for sleep.
  function Used(start: int, suspended: int, now: int): int {
    if now - start - suspended < 0 then 0 else now - start - suspended
  }

  /** What asking for the next attempt does: the window begins now if none is open; a try is counted exactly if some
      budget is left; and the delay of that try is granted exactly if it still fits what is left. */
  lemma NextAttemptExactly(policy: Policy, config: PolicyConfig, now: int, draw: Draw)
    ensures var decision, after := policy.DecideNext(config, now, draw), policy.AfterNext(config, now, draw);
            var start := if policy.windowStartedAt.Some? then policy.windowStartedAt.value else now;
            var used := Used(start, policy.suspendedMs, now);
            var tried := used < config.maxElapsedMs;
            var delay := Delay(config, policy.attempt + 1, draw);
            && after.windowStartedAt == Some(start) && after.suspendedMs == policy.suspendedMs
            && after.attempt == policy.attempt + (if tried then 1 else 0)
            && (decision.Scheduled? <==> tried && used + delay < config.maxElapsedMs)
            && (decision.Scheduled? ==>
                  decision.attempt == after.attempt && decision.delayMs == delay && decision.elapsedMs == used)
            && after.granted == policy.granted + (if decision.Scheduled? then [delay] else [])
            && (policy.IsExhausted(config, now) <==> !tried)
  {
    assert policy.granted + [] == policy.granted;
  }

  class DefaultReconnectPolicy {
    const config: PolicyConfig
    var attempt: nat
    var windowStartedAt: Option<int>
    var suspendedMs: int
    ghost var granted: seq<nat>

    constructor (config: PolicyConfig)
      ensures this.config == config && View() == FRESH_POLICY
    {
      this.config := config;
      attempt := 0;
      windowStartedAt := None;
      suspendedMs := 0;
      granted := [];
    }

    ghost function View(): Policy
      reads this
    {
      Policy(attempt, windowStartedAt, suspendedMs, granted)
    }

    method StartWindow(now: int)
      modifies this
      ensures View() == old(View()).StartWindow(now)
    {
      if windowStartedAt == None {
        windowStartedAt := Some(now);
      }
    }

    method Reset()
      modifies this
      ensures View() == FRESH_POLICY
    {
      attempt := 0;
      windowStartedAt := None;
      suspendedMs := 0;
      granted := [];
    }

    method RecordSuspendedDuration(durationMs: int) returns (total: int)
      modifies this
      ensures View() == old(View()).RecordSuspended(durationMs) && total == suspendedMs
    {
      suspendedMs := suspendedMs + Max(0, durationMs);
      total := suspendedMs;
    }

    method GetElapsedMs(now: int) returns (elapsed: int)
      ensures elapsed == View().Elapsed(now)
    {
      var start := if windowStartedAt.Some? then windowStartedAt.value else now;
      elapsed := Max(0, now - start - suspendedMs);
    }

    method ScheduleNextAttempt(now: int, draw: Draw) returns (decision: Decision)
      modifies this
      ensures decision == old(View()).DecideNext(config, now, draw)
      ensures View() == old(View()).AfterNext(config, now, draw)
    {
      StartWindow(now);
      var elapsed := GetElapsedMs(now);
      if elapsed >= config.maxElapsedMs {
        return Exhausted(elapsed, config.maxElapsedMs);
      }
      attempt := attempt + 1;
      var delayMs := Delay(config, attempt, draw);
      if elapsed + delayMs >= config.maxElapsedMs {
        return Exhausted(elapsed, config.maxElapsedMs);
      }
      granted := granted + [delayMs];
      decision := Scheduled(attempt, delayMs, elapsed);
    }

    method GetExhaustedDecision(now: int) returns (decision: Option<Decision>)
      modifies this
      ensures View() == old(View()).StartWindow(now)
      ensures decision.Some? <==> old(View()).IsExhausted(config, now)
      ensures decision.Some? ==> decision.value == Exhausted(View().Elapsed(now), config.maxElapsedMs)
    {
      StartWindow(now);
      var elapsed := GetElapsedMs(now);
      decision := if elapsed < config.maxElapsedMs then None else Some(Exhausted(elapsed, config.maxElapsedMs));
    }
  }
}
