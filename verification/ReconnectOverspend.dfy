// Exactly which configurations let a reconnect window overspend its budget, for any caller and for one who
// never connects while the client is reconnecting.
module ReconnectOverspend {
  import opened Prelude
  import opened GatewayStatus
  import opened GatewayLifecycle
  import opened ReconnectPolicy
  import opened CloseDecision
  import opened GatewaySpec
  import opened GatewayInvariant
  import opened GatewayRuns
  import opened ReconnectBudget

  // ---- The configurations ----

  // The longest delay the n-th attempt can be granted, if it can be granted one at all.
  function Top(config: PolicyConfig, n: nat): nat
    requires n >= 1
  {
    if config.fullJitter && Cap(config, n) >= config.maxElapsedMs > 0 then config.maxElapsedMs - 1 else Cap(config, n)
  }

  // What the first n attempts can be granted together; a delay as long as the budget never fits.
  function FitSum(config: PolicyConfig, n: nat): nat {
    if n == 0 then 0
    else FitSum(config, n - 1) + (if Top(config, n) < config.maxElapsedMs then Top(config, n) else 0)
  }

  // The delays that can be granted one by one add up to the budget.
  ghost predicate CanOverspend(config: Config) {
    config.reconnectEnabled && exists n :: FitSum(config.policy, n) >= config.policy.maxElapsedMs
  }

  // A second delay can be granted on top of the first with no time credited.
  predicate RetryFits(config: PolicyConfig) {
    config.fullJitter || Cap(config, 1) + Cap(config, 2) < config.maxElapsedMs
  }

  lemma CapGrows(config: PolicyConfig, n: nat)
    requires n >= 1
    ensures Cap(config, n) <= Cap(config, n + 1)
  {
    if config.exponential {
      assert Pow2(n) == 2 * Pow2(n - 1);
      Doubled(config.baseMs, Pow2(n - 1));
    }
  }

  lemma Doubled(base: nat, power: nat)
    ensures base * power <= base * (2 * power)
  {
    assert base * (2 * power) == base * power + base * power;
  }

  lemma {:induction false} CapIsMonotone(config: PolicyConfig, i: nat, n: nat)
    requires 1 <= i <= n
    ensures Cap(config, i) <= Cap(config, n) && Top(config, i) <= Top(config, n)
    decreases n
  {
    if i < n {
      CapIsMonotone(config, i, n - 1);
      CapGrows(config, n - 1);
    }
  }

  // The first attempt with which the budget is reached; every delay up to it fits.
  lemma {:induction false} FirstReach(config: PolicyConfig, n: nat) returns (k: nat)
    requires config.maxElapsedMs > 0 && FitSum(config, n) >= config.maxElapsedMs
    ensures k >= 1 && FitSum(config, k) >= config.maxElapsedMs
    ensures forall i :: 1 <= i <= k ==> Top(config, i) < config.maxElapsedMs
  {
    if n > 1 && FitSum(config, n - 1) >= config.maxElapsedMs {
      k := FirstReach(config, n - 1);
    } else {
      k := n;
      forall i | 1 <= i <= k ensures Top(config, i) < config.maxElapsedMs {
        CapIsMonotone(config, i, k);
      }
    }
  }

  // Attempts that are all granted at least `least` reach any sum.
  lemma {:induction false} SteadyGrants(config: PolicyConfig, least: nat, n: nat)
    requires forall i :: 1 <= i <= n ==> least <= Top(config, i) < config.maxElapsedMs
    ensures FitSum(config, n) >= n * least
  {
    if n > 0 {
      SteadyGrants(config, least, n - 1);
      assert n * least == (n - 1) * least + least;
    }
  }

  lemma SteadyGrantsReach(config: PolicyConfig)
    requires config.maxElapsedMs > 0
    requires forall n :: n >= 1 ==> 1 <= Top(config, n) < config.maxElapsedMs
    ensures FitSum(config, config.maxElapsedMs) >= config.maxElapsedMs
  {
    SteadyGrants(config, 1, config.maxElapsedMs);
  }

  lemma {:induction false} NothingFits(config: PolicyConfig, n: nat)
    requires forall i :: i >= 1 ==> Top(config, i) == 0 || Top(config, i) >= config.maxElapsedMs
    ensures FitSum(config, n) == 0
  {
    if n > 0 {
      NothingFits(config, n - 1);
    }
  }

  // Caps are bounded below by the smaller of base and maximum, and above by the maximum.
  lemma CapBounds(config: PolicyConfig, n: nat)
    requires n >= 1
    ensures Min(config.baseMs, config.maxMs) <= Cap(config, n) <= config.maxMs
    ensures config.baseMs == 0 ==> Cap(config, n) == 0
    ensures !config.exponential ==> Cap(config, n) == Min(config.baseMs, config.maxMs)
  {
    CapAtLeast(config, n);
    if config.baseMs == 0 && config.exponential {
      assert config.baseMs * Pow2(n - 1) == 0;
    }
  }

  // How often `base` is doubled until it reaches `limit`.
  function Doublings(base: nat, limit: nat): nat
    requires base >= 1
    decreases limit - base
  {
    if base >= limit then 0 else 1 + Doublings(2 * base, limit)
  }

  lemma DoubleFirst(base: nat, n: nat)
    requires n >= 1
    ensures base * Pow2(n) == 2 * base * Pow2(n - 1) == base * Pow2(n - 1) + base * Pow2(n - 1)
  {
    assert base * (2 * Pow2(n - 1)) == 2 * base * Pow2(n - 1);
  }

  lemma {:induction false} DoublingsReach(base: nat, limit: nat, n: nat)
    requires base >= 1
    ensures base * Pow2(n) >= limit <==> n >= Doublings(base, limit)
    decreases n
  {
    if n == 0 {
      assert base * Pow2(0) == base;
    } else {
      DoubleFirst(base, n);
      DoublingsReach(2 * base, limit, n - 1);
      if base >= limit {
        Pow2Positive(n);
        assert base * Pow2(n) >= base * 1;
      }
    }
  }

  // Doubling past the budget: the delays below it add up to base * (2^n - 1), and no other fits.
  lemma {:induction false} DoublingSum(config: PolicyConfig, n: nat)
    requires !config.fullJitter && config.exponential && config.maxMs >= config.maxElapsedMs && config.baseMs >= 1
    ensures var k := Doublings(config.baseMs, config.maxElapsedMs);
            FitSum(config, n) == config.baseMs * (Pow2(if n <= k then n else k) - 1)
  {
    var k := Doublings(config.baseMs, config.maxElapsedMs);
    if n == 0 {
      assert config.baseMs * (Pow2(0) - 1) == 0;
    } else {
      DoublingSum(config, n - 1);
      DoublingsReach(config.baseMs, config.maxElapsedMs, n - 1);
      if n <= k {
        DoubleFirst(config.baseMs, n);
        Distribute(config.baseMs, Pow2(n));
        Distribute(config.baseMs, Pow2(n - 1));
      }
    }
  }

  lemma Distribute(base: nat, power: int)
    ensures base * (power - 1) == base * power - base
  {
  }

  lemma DoublingOverspendsExactly(config: Config)
    requires var p := config.policy;
             !p.fullJitter && p.exponential && p.maxMs >= p.maxElapsedMs > 0
    ensures var p := config.policy;
            CanOverspend(config) <==>
            && config.reconnectEnabled && p.baseMs >= 1
            && p.baseMs * (Pow2(Doublings(p.baseMs, p.maxElapsedMs)) - 1) >= p.maxElapsedMs
  {
    var p := config.policy;
    if p.baseMs == 0 {
      forall n | n >= 1 ensures Top(p, n) == 0 {
        CapBounds(p, n);
      }
      forall n ensures FitSum(p, n) == 0 {
        NothingFits(p, n);
      }
    } else {
      var k := Doublings(p.baseMs, p.maxElapsedMs);
      DoublingSum(p, k);
      forall n ensures FitSum(p, n) <= FitSum(p, k) {
        if n <= k {
          FitSumGrows(p, n, k);
        } else {
          DoublingSum(p, n);
        }
      }
    }
  }

  /** In plain numbers. With jitter: any positive delay, and a budget above 1 ms. Constant backoff: a positive
      delay below the budget. Doubling up to a maximum below the budget: any positive delay. Doubling past
      the budget: the doublings of the base that stay below it add up to it. */
  lemma {:induction false} CanOverspendInNumbers(config: Config)
    requires config.policy.maxElapsedMs > 0
    ensures var p := config.policy;
            var least := Min(p.baseMs, p.maxMs);
            && (p.fullJitter ==>
                  (CanOverspend(config) <==> config.reconnectEnabled && least >= 1 && p.maxElapsedMs >= 2))
            && (!p.fullJitter && !p.exponential ==>
                  (CanOverspend(config) <==> config.reconnectEnabled && 1 <= least < p.maxElapsedMs))
            && (!p.fullJitter && p.exponential && p.maxMs < p.maxElapsedMs ==>
                  (CanOverspend(config) <==> config.reconnectEnabled && least >= 1))
            && (!p.fullJitter && p.exponential && p.maxMs >= p.maxElapsedMs ==>
                  (CanOverspend(config) <==>
                   && config.reconnectEnabled && p.baseMs >= 1
                   && p.baseMs * (Pow2(Doublings(p.baseMs, p.maxElapsedMs)) - 1) >= p.maxElapsedMs))
  {
    var p := config.policy;
    var least := Min(p.baseMs, p.maxMs);
    forall n | n >= 1 ensures least <= Cap(p, n) <= p.maxMs && (p.baseMs == 0 ==> Cap(p, n) == 0) &&
                              (!p.exponential ==> Cap(p, n) == least) {
      CapBounds(p, n);
    }
    if forall n :: n >= 1 ==> 1 <= Top(p, n) < p.maxElapsedMs {
      SteadyGrantsReach(p);
    }
    if forall n :: n >= 1 ==> Top(p, n) == 0 || Top(p, n) >= p.maxElapsedMs {
      forall n ensures FitSum(p, n) == 0 {
        NothingFits(p, n);
      }
    }
    if !p.fullJitter && p.exponential && p.maxMs >= p.maxElapsedMs {
      DoublingOverspendsExactly(config);
    }
  }

  // ---- Which configurations never overspend, whatever the caller does ----

  predicate Ledger(c: Client) {
    && Sum(c.sh.policy.granted) <= FitSum(c.config.policy, c.sh.policy.attempt)
    && (!c.config.reconnectEnabled ==> c.sh.policy.granted == [])
  }

  predicate SharedLedger(config: Config, sh: Shared) {
    && Sum(sh.policy.granted) <= FitSum(config.policy, sh.policy.attempt)
    && (!config.reconnectEnabled ==> sh.policy.granted == [])
  }

  lemma ScheduleKeepsLedger(env: Env, sh: Shared, draw: Draw)
    requires SharedLedger(env.config, sh)
    ensures SharedLedger(env.config, ScheduleReconnect(env, sh, draw))
  {
    var decision := sh.policy.DecideNext(env.config.policy, env.now, draw);
    if decision.Scheduled? {
      SumAppend(sh.policy.granted, decision.delayMs);
    }
  }

  lemma CloseKeepsLedger(env: Env, p: Pair, code: CloseCode, draw: Draw)
    requires SharedLedger(env.config, p.sh)
    ensures SharedLedger(env.config, HandleClose(env, p, code, draw).sh)
  {
    forall error
      ensures FailBeforeReady(p, error, false).sh.policy == p.sh.policy
      ensures FailAtRuntime(p, error).sh.policy == p.sh.policy {}
    assert HandleStopClose(env, p, code).sh.policy == p.sh.policy;
    StartWindowKeepsLedger(env, p, draw);
  }

  lemma StartWindowKeepsLedger(env: Env, p: Pair, draw: Draw)
    requires SharedLedger(env.config, p.sh)
    ensures SharedLedger(env.config, HandleStartReconnectWindow(env, p, draw).sh)
  {
    var a := CommitTerminalError(p.a,
               ResolveTransportTerminalError(p.a, GatewayError(TransportError, RuntimeFailure, true)));
    var left := EnterTerminal(Pair(p.sh.(life := p.sh.life.MarkReconnectingIfCurrent(a.token)), a));
    ScheduleKeepsLedger(env, left.sh, draw);
  }

  lemma FailKeepsLedger(config: Config, p: Pair, error: GatewayError, closeTransport: bool)
    requires SharedLedger(config, p.sh)
    ensures SharedLedger(config, FailBeforeReady(p, error, closeTransport).sh)
  {
    assert FailBeforeReady(p, error, closeTransport).sh.policy == p.sh.policy;
  }

  lemma MessageKeepsLedger(config: Config, p: Pair, frame: InFrame)
    requires SharedLedger(config, p.sh)
    ensures SharedLedger(config, HandleMessage(p, frame).sh)
  {
    if frame.HandshakeControl? || frame.InvalidHandshake? {
      var result := ProcessHandshake(frame);
      if result.HandshakeFailed? {
        FailKeepsLedger(config, p, result.error, true);
      } else {
        assert Sum([]) == 0;
      }
    }
  }

  lemma TimerKeepsLedger(c: Client, preparation: Preparation)
    requires Ledger(c) && c.sh.timer.Some?
    ensures Ledger(FireReconnectTimer(c, preparation)) && FireReconnectTimer(c, preparation).config == c.config
  {
  }

  lemma DisconnectKeepsLedger(c: Client)
    requires Ledger(c)
    ensures Ledger(Disconnect(c)) && Disconnect(c).config == c.config
  {
  }

  // Opening, failing, timing out and aborting leave the policy alone.
  lemma AttemptKeepsPolicy(env: Env, p: Pair, sendable: bool)
    ensures HandleOpen(env, p, sendable).sh.policy == p.sh.policy
    ensures HandleError(p).sh.policy == p.sh.policy
    ensures HandleHandshakeTimeout(p).sh.policy == p.sh.policy
  {
  }

  lemma AbortKeepsPolicy(p: Pair)
    ensures HandleAbort(p).sh.policy == p.sh.policy
  {
  }

  lemma SharedEventKeepsLedger(c: Client, e: Event)
    requires Ledger(c) && Possible(c, e)
    requires e.EvConnect? || e.EvAbort? || e.EvHeartbeat? || e.EvSend? || e.EvAdvance?
    ensures Ledger(Step(c, e)) && Step(c, e).config == c.config
  {
  }

  lemma StepKeepsLedger(c: Client, e: Event)
    requires Ledger(c) && Possible(c, e)
    ensures Ledger(Step(c, e)) && Step(c, e).config == c.config
  {
    match e {
      case EvOpen(s, sendable) => AttemptKeepsPolicy(c.Context(), c.At(s), sendable);
      case EvError(s) => AttemptKeepsPolicy(c.Context(), c.At(s), true);
      case EvHandshakeTimeout(s) => AttemptKeepsPolicy(c.Context(), c.At(s), true);
      case EvAbortListener(s) => AbortKeepsPolicy(c.At(s));
      case EvDisconnect => DisconnectKeepsLedger(c);
      case EvClose(s, code, draw) => CloseKeepsLedger(c.Context(), c.At(s), code, draw);
      case EvMessage(s, frame) => MessageKeepsLedger(c.config, c.At(s), frame);
      case EvReconnectTimer(preparation) => TimerKeepsLedger(c, preparation);
      case EvContinueSignal(draw) => ScheduleKeepsLedger(c.Context(), c.sh.(signals := c.sh.signals - 1), draw);
      case EvConnect(_) => SharedEventKeepsLedger(c, e);
      case EvAbort => SharedEventKeepsLedger(c, e);
      case EvHeartbeat(_) => SharedEventKeepsLedger(c, e);
      case EvSend(_) => SharedEventKeepsLedger(c, e);
      case EvAdvance(_) => SharedEventKeepsLedger(c, e);
    }
  }

  lemma {:induction false} RunKeepsLedger(c: Client, events: seq<Event>)
    requires Ledger(c) && IsRun(c, events)
    ensures Ledger(Exec(c, events)) && Exec(c, events).config == c.config
    decreases |events|
  {
    if events != [] {
      StepKeepsLedger(c, events[0]);
      RunKeepsLedger(Step(c, events[0]), events[1..]);
    }
  }

  /** Where the delays that fit do not add up to the budget, no caller can overspend it. */
  lemma IncapableStaysInBudget(config: Config, events: seq<Event>)
    requires config.policy.maxElapsedMs > 0 && IsRun(InitialClient(config), events) && !CanOverspend(config)
    ensures Sum(Exec(InitialClient(config), events).sh.policy.granted) < config.policy.maxElapsedMs
  {
    assert Sum([]) == 0;
    RunKeepsLedger(InitialClient(config), events);
    var policy := Exec(InitialClient(config), events).sh.policy;
    if config.reconnectEnabled {
      assert FitSum(config.policy, policy.attempt) < config.policy.maxElapsedMs;
    }
  }

  // ---- Runs, put together ----

  // The caller does not ask for a public connect while the client is reconnecting.
  predicate Patient(c: Client, e: Event) {
    e.EvConnect? ==> !c.sh.life.status.Reconnecting?
  }

  predicate IsPatientRun(c: Client, events: seq<Event>)
    requires IsRun(c, events)
    decreases |events|
  {
    events == [] || (Patient(c, events[0]) && IsPatientRun(Step(c, events[0]), events[1..]))
  }

  lemma {:induction false} RunConcat(c: Client, first: seq<Event>, second: seq<Event>)
    requires IsRun(c, first) && IsRun(Exec(c, first), second)
    ensures IsRun(c, first + second) && Exec(c, first + second) == Exec(Exec(c, first), second)
    ensures IsPatientRun(c, first) && IsPatientRun(Exec(c, first), second) ==> IsPatientRun(c, first + second)
    decreases |first|
  {
    if first == [] {
      assert first + second == second;
    } else {
      RunConcat(Step(c, first[0]), first[1..], second);
      assert (first + second)[1..] == first[1..] + second;
    }
  }

  lemma OneEvent(c: Client, e: Event) returns (run: seq<Event>)
    requires Delivered(c, e) && CleanPreparation(e)
    ensures IsRun(c, run) && Exec(c, run) == Step(c, e)
    ensures Patient(c, e) ==> IsPatientRun(c, run)
  {
    run := [e];
    assert run[1..] == [];
  }

  lemma Then(c: Client, first: seq<Event>, e: Event) returns (run: seq<Event>)
    requires IsRun(c, first) && Delivered(Exec(c, first), e) && CleanPreparation(e)
    ensures IsRun(c, run) && Exec(c, run) == Step(Exec(c, first), e)
    ensures IsPatientRun(c, first) && Patient(Exec(c, first), e) ==> IsPatientRun(c, run)
  {
    var last := OneEvent(Exec(c, first), e);
    RunConcat(c, first, last);
    run := first + last;
  }

  // ---- The stretches of an overspending run ----

  // Ready on session `s`.
  predicate Up(c: Client, s: nat) {
    && c.config.reconnectEnabled && !c.aborted && c.sh.life.status.Ready? && !c.sh.life.manuallyDisconnected
    && c.sh.life.activeSessionId == Some(s) && c.sh.life.nextSessionId == s
    && c.sh.active.None? && c.sh.signals == 0 && s in c.attempts
    && c.attempts[s].token == Token(c.sh.life.generation, s) && c.attempts[s].phase.PhaseReady?
    && !c.attempts[s].cleaned && c.attempts[s].terminalError.None? && forall t :: t in c.attempts ==> t <= s
  }

  // Not ready, with nothing in flight but perhaps a timer.
  predicate Down(c: Client, s: nat) {
    && c.config.reconnectEnabled && !c.aborted && !c.sh.life.status.Ready? && c.sh.life.nextSessionId == s
    && c.sh.active.None? && c.sh.signals == 0 && forall t :: t in c.attempts ==> t <= s
  }

  lemma BringUp(c: Client, s: nat) returns (run: seq<Event>)
    requires Down(c, s)
    ensures IsRun(c, run) && (!c.sh.life.status.Reconnecting? ==> IsPatientRun(c, run))
    ensures var up := Exec(c, run);
      && Up(up, s + 1) && up.config == c.config && up.sh.policy == FRESH_POLICY
      && up.sh.timer == c.sh.timer && up.now == c.now && up.sh.life.generation == c.sh.life.generation
  {
    run := OneEvent(c, EvConnect(Prepared));
    run := Then(c, run, EvOpen(s + 1, true));
    run := Then(c, run, EvMessage(s + 1, HandshakeControl(RegisterOk)));
  }

  // A delay the n-th attempt can be given, and the random number that gives it.
  predicate Attainable(config: PolicyConfig, n: nat, delay: nat)
    requires n >= 1
  {
    delay <= Cap(config, n) && (!config.fullJitter ==> delay == Cap(config, n))
  }

  lemma FractionBelowOne(part: nat, whole: real)
    requires part as real < whole
    ensures 0.0 <= part as real / whole < 1.0
    ensures (part as real / whole) * whole == part as real
  {
    var q := part as real / whole;
    assert q * whole == part as real;
    assert q >= 1.0 ==> (q - 1.0) * whole >= 0.0;
    assert q < 0.0 ==> q * whole < 0.0;
  }

  lemma DrawFor(config: PolicyConfig, n: nat, delay: nat) returns (draw: Draw)
    requires n >= 1 && Attainable(config, n, delay)
    ensures Delay(config, n, draw) == delay
  {
    var cap := Cap(config, n);
    FractionBelowOne(delay, (cap + 1) as real);
    draw := delay as real / (cap + 1) as real;
  }

  // A window that has consumed nothing grants any attainable delay below the budget.
  lemma Grants(config: PolicyConfig, policy: Policy, now: int, delay: nat) returns (draw: Draw)
    requires Attainable(config, policy.attempt + 1, delay)
    requires policy.StartWindow(now).Elapsed(now) + delay < config.maxElapsedMs
    ensures policy.DecideNext(config, now, draw) ==
            Scheduled(policy.attempt + 1, delay, policy.StartWindow(now).Elapsed(now))
    ensures policy.AfterNext(config, now, draw) ==
            policy.StartWindow(now).(attempt := policy.attempt + 1, granted := policy.granted + [delay])
  {
    draw := DrawFor(config, policy.attempt + 1, delay);
  }

  // The ready attempt's socket closes: its window starts.
  lemma StartsWindow(c: Client, s: nat)
    requires Up(c, s)
    ensures forall draw ::
              && Delivered(c, EvClose(s, Some(1006), draw))
              && Step(c, EvClose(s, Some(1006), draw)) ==
                 c.With(s, HandleStartReconnectWindow(c.Context(), c.At(s), draw))
  {
  }

  lemma WindowStarted(c: Client, s: nat, draw: Draw, delay: nat)
    requires Up(c, s)
    requires c.sh.policy.DecideNext(c.config.policy, c.now, draw).Scheduled?
    requires c.sh.policy.DecideNext(c.config.policy, c.now, draw).delayMs == delay
    ensures var down := c.With(s, HandleStartReconnectWindow(c.Context(), c.At(s), draw));
      && Down(down, s) && down.config == c.config && down.now == c.now
      && down.sh.timer == Some(Timer(c.sh.life.generation, c.now + delay))
      && down.sh.life.status.Reconnecting? && !down.sh.life.manuallyDisconnected
      && down.sh.life.generation == c.sh.life.generation
      && down.sh.policy == c.sh.policy.AfterNext(c.config.policy, c.now, draw)
  {
  }

  lemma Drop(c: Client, s: nat, delay: nat) returns (run: seq<Event>)
    requires Up(c, s) && c.sh.policy.granted == [] && c.sh.policy.attempt == 0
    requires c.sh.policy.StartWindow(c.now).Elapsed(c.now) == 0
    requires Attainable(c.config.policy, 1, delay) && delay < c.config.policy.maxElapsedMs
    ensures IsRun(c, run) && IsPatientRun(c, run)
    ensures var down := Exec(c, run);
      && Down(down, s) && down.config == c.config && down.now == c.now
      && down.sh.timer == Some(Timer(c.sh.life.generation, c.now + delay))
      && down.sh.life.status.Reconnecting? && !down.sh.life.manuallyDisconnected
      && down.sh.life.generation == c.sh.life.generation
      && down.sh.policy == c.sh.policy.StartWindow(c.now).(attempt := 1, granted := [delay])
  {
    var draw := Grants(c.config.policy, c.sh.policy, c.now, delay);
    StartsWindow(c, s);
    WindowStarted(c, s, draw, delay);
    run := OneEvent(c, EvClose(s, Some(1006), draw));
  }

  // A leftover timer, firing late on a client that is ready again: its credit goes into a window that starts
  // only now.
  lemma LateTimer(c: Client, s: nat, lateMs: nat) returns (run: seq<Event>)
    requires Up(c, s) && c.config.policy.maxElapsedMs > 0 && c.sh.policy == FRESH_POLICY
    requires c.sh.timer.Some? && c.sh.timer.value.generation == c.sh.life.generation
    requires c.sh.timer.value.fireAt >= c.now && lateMs > SLEEP_DRIFT_THRESHOLD_MS
    ensures IsRun(c, run) && IsPatientRun(c, run)
    ensures var late := Exec(c, run);
      Up(late, s) && late.config == c.config && late.sh.policy == Policy(0, Some(late.now), lateMs, [])
  {
    run := OneEvent(c, EvAdvance(c.sh.timer.value.fireAt + lateMs - c.now));
    run := Then(c, run, EvReconnectTimer(Prepared));
  }

  // Reconnecting in a window that started at `start`, with so much credit that nothing looks consumed yet.
  predicate InRetryWindow(c: Client, s: nat, start: int, credit: nat) {
    && Down(c, s) && c.sh.life.status.Reconnecting? && !c.sh.life.manuallyDisconnected
    && c.sh.policy.windowStartedAt == Some(start) && c.sh.policy.suspendedMs == credit
    && c.sh.policy.attempt == |c.sh.policy.granted|
    && c.sh.timer == Some(Timer(c.sh.life.generation, start + Sum(c.sh.policy.granted)))
    && c.now <= start + Sum(c.sh.policy.granted) && Sum(c.sh.policy.granted) <= credit
  }

  // The retry fires on time.
  lemma RetryFires(c: Client, s: nat) returns (run: seq<Event>)
    requires Down(c, s) && c.sh.life.status.Reconnecting? && !c.sh.life.manuallyDisconnected
    requires c.sh.timer.Some? && c.sh.timer.value.generation == c.sh.life.generation
    requires c.now <= c.sh.timer.value.fireAt && c.sh.policy.windowStartedAt.Some?
    requires !c.sh.policy.IsExhausted(c.config.policy, c.sh.timer.value.fireAt)
    ensures IsRun(c, run) && IsPatientRun(c, run)
    ensures var due := c.(now := c.sh.timer.value.fireAt, sh := c.sh.(timer := None));
      Exec(c, run) == Connect(due, true, Prepared)
  {
    run := OneEvent(c, EvAdvance(c.sh.timer.value.fireAt - c.now));
    run := Then(c, run, EvReconnectTimer(Prepared));
  }

  // The retry fires on time and its socket closes, `wait` later, before it opened.
  lemma FailedRetry(c: Client, s: nat, wait: nat) returns (run: seq<Event>)
    requires Down(c, s) && c.sh.life.status.Reconnecting? && !c.sh.life.manuallyDisconnected
    requires c.sh.timer.Some? && c.sh.timer.value.generation == c.sh.life.generation
    requires c.now <= c.sh.timer.value.fireAt
    requires c.sh.policy.windowStartedAt.Some?
    requires !c.sh.policy.IsExhausted(c.config.policy, c.sh.timer.value.fireAt)
    ensures IsRun(c, run) && IsPatientRun(c, run)
    ensures var after := Exec(c, run);
      && after.config == c.config && !after.aborted && after.now == c.sh.timer.value.fireAt + wait
      && after.sh.policy == c.sh.policy && after.sh.signals == 1 && after.sh.timer.None? && after.sh.active.None?
      && after.sh.life.status.Reconnecting? && !after.sh.life.manuallyDisconnected
      && after.sh.life.generation == c.sh.life.generation && after.sh.life.nextSessionId == s + 1
      && forall t :: t in after.attempts ==> t <= s + 1
  {
    run := RetryFires(c, s);
    run := Then(c, run, EvAdvance(wait));
    run := Then(c, run, EvClose(s + 1, Some(1006), 0.0));
  }

  // Catching the signal grants the next delay and schedules it.
  lemma CatchGrants(c: Client, delay: nat) returns (draw: Draw)
    requires c.config.reconnectEnabled && !c.aborted && c.sh.signals > 0
    requires Attainable(c.config.policy, c.sh.policy.attempt + 1, delay) && c.sh.policy.windowStartedAt.Some?
    requires c.sh.policy.Elapsed(c.now) + delay < c.config.policy.maxElapsedMs
    ensures Step(c, EvContinueSignal(draw)) ==
            c.(sh := c.sh.(
                 signals := c.sh.signals - 1, life := c.sh.life.BeginReconnectWindow(),
                 policy := c.sh.policy.(attempt := c.sh.policy.attempt + 1, granted := c.sh.policy.granted + [delay]),
                 timer := Some(Timer(c.sh.life.generation, c.now + delay))))
  {
    draw := Grants(c.config.policy, c.sh.policy, c.now, delay);
  }

  // The catch of a failed retry leaves a longer window.
  lemma RetryScheduled(c: Client, after: Client, s: nat, start: int, credit: nat, delay: nat)
    requires c.config.reconnectEnabled && !c.aborted && c.sh.active.None? && c.sh.signals == 1
    requires c.sh.life.status.Reconnecting? && !c.sh.life.manuallyDisconnected && c.sh.life.nextSessionId == s
    requires forall t :: t in c.attempts ==> t <= s
    requires c.sh.policy.windowStartedAt == Some(start) && c.sh.policy.suspendedMs == credit
    requires c.sh.policy.attempt == |c.sh.policy.granted| && c.now == start + Sum(c.sh.policy.granted)
    requires Sum(c.sh.policy.granted) + delay <= credit
    requires after == c.(sh := c.sh.(
                 signals := c.sh.signals - 1, life := c.sh.life.BeginReconnectWindow(),
                 policy := c.sh.policy.(attempt := c.sh.policy.attempt + 1, granted := c.sh.policy.granted + [delay]),
                 timer := Some(Timer(c.sh.life.generation, c.now + delay))))
    ensures InRetryWindow(after, s, start, credit)
  {
    SumAppend(c.sh.policy.granted, delay);
  }

  lemma Retry(c: Client, s: nat, start: int, credit: nat, delay: nat) returns (run: seq<Event>)
    requires InRetryWindow(c, s, start, credit) && Attainable(c.config.policy, c.sh.policy.attempt + 1, delay)
    requires delay < c.config.policy.maxElapsedMs && Sum(c.sh.policy.granted) + delay <= credit
    ensures IsRun(c, run) && IsPatientRun(c, run)
    ensures var after := Exec(c, run);
      && InRetryWindow(after, s + 1, start, credit) && after.config == c.config
      && after.sh.policy.granted == c.sh.policy.granted + [delay]
  {
    run := FailedRetry(c, s, 0);
    var signalled := Exec(c, run);
    SumAppend(c.sh.policy.granted, delay);
    assert signalled.sh.policy.Elapsed(signalled.now) == 0;
    var draw := CatchGrants(signalled, delay);
    RetryScheduled(signalled, Step(signalled, EvContinueSignal(draw)), s + 1, start, credit, delay);
    run := Then(c, run, EvContinueSignal(draw));
  }

  // Granted the longest delay every time.
  predicate AllTop(config: PolicyConfig, granted: seq<nat>) {
    Sum(granted) == FitSum(config, |granted|)
  }

  lemma {:induction false} RetryUntil(c: Client, s: nat, start: int, credit: nat, k: nat) returns (run: seq<Event>)
    requires InRetryWindow(c, s, start, credit) && AllTop(c.config.policy, c.sh.policy.granted)
    requires 1 <= c.sh.policy.attempt <= k && FitSum(c.config.policy, k) <= credit
    requires forall i :: 1 <= i <= k ==> Top(c.config.policy, i) < c.config.policy.maxElapsedMs
    ensures IsRun(c, run) && IsPatientRun(c, run)
    ensures Sum(Exec(c, run).sh.policy.granted) == FitSum(c.config.policy, k)
    decreases k - c.sh.policy.attempt
  {
    var n := c.sh.policy.attempt + 1;
    if n > k {
      run := [];
    } else {
      var delay := Top(c.config.policy, n);
      FitSumGrows(c.config.policy, n, k);
      SumAppend(c.sh.policy.granted, delay);
      run := Retry(c, s, start, credit, delay);
      var rest := RetryUntil(Exec(c, run), s + 1, start, credit, k);
      RunConcat(c, run, rest);
      run := run + rest;
    }
  }

  lemma {:induction false} FitSumGrows(config: PolicyConfig, n: nat, k: nat)
    requires n <= k
    ensures FitSum(config, n) <= FitSum(config, k)
    decreases k
  {
    if n < k {
      FitSumGrows(config, n, k - 1);
    }
  }

  // A ready client whose leftover timer fires late and that then loses its connection.
  lemma LeftoverWindow(c: Client, s: nat, credit: nat, delay: nat) returns (run: seq<Event>, start: int)
    requires Up(c, s) && c.config.policy.maxElapsedMs > 0 && c.sh.policy == FRESH_POLICY
    requires c.sh.timer.Some? && c.sh.timer.value.generation == c.sh.life.generation
    requires c.sh.timer.value.fireAt >= c.now && credit > SLEEP_DRIFT_THRESHOLD_MS && delay <= credit
    requires Attainable(c.config.policy, 1, delay) && delay < c.config.policy.maxElapsedMs
    ensures IsRun(c, run) && IsPatientRun(c, run) && Exec(c, run).config == c.config
    ensures InRetryWindow(Exec(c, run), s, start, credit) && Exec(c, run).sh.policy.granted == [delay]
  {
    var wait := LateTimer(c, s, credit);
    start := Exec(c, wait).now;
    var drop := CreditedDrop(Exec(c, wait), s, credit, delay);
    RunConcat(c, wait, drop);
    run := wait + drop;
  }

  lemma CreditedDrop(c: Client, s: nat, credit: nat, delay: nat) returns (run: seq<Event>)
    requires Up(c, s) && c.sh.policy == Policy(0, Some(c.now), credit, []) && delay <= credit
    requires Attainable(c.config.policy, 1, delay) && delay < c.config.policy.maxElapsedMs
    ensures IsRun(c, run) && IsPatientRun(c, run) && Exec(c, run).config == c.config
    ensures InRetryWindow(Exec(c, run), s, c.now, credit) && Exec(c, run).sh.policy.granted == [delay]
  {
    CreditedWindow(c.now, credit);
    run := Drop(c, s, delay);
    FirstGrant(Exec(c, run), s, c.now, credit, delay);
  }

  // Opened with all its credit, a window has consumed nothing.
  lemma CreditedWindow(now: int, credit: nat)
    ensures var window := Policy(0, Some(now), credit, []);
            window.StartWindow(now) == window && window.Elapsed(now) == 0
  {
  }

  lemma FirstGrant(c: Client, s: nat, start: int, credit: nat, delay: nat)
    requires Down(c, s) && c.sh.life.status.Reconnecting? && !c.sh.life.manuallyDisconnected && c.now == start
    requires c.sh.policy == Policy(1, Some(start), credit, [delay]) && delay <= credit
    requires c.sh.timer == Some(Timer(c.sh.life.generation, start + delay))
    ensures InRetryWindow(c, s, start, credit)
  {
    SumAppend([], delay);
    assert [] + [delay] == [delay];
  }

  // From a ready client with a leftover timer on: the window it opens is granted the budget or more.
  lemma LeftoverOverspends(c: Client, s: nat) returns (run: seq<Event>)
    requires Up(c, s) && c.config.policy.maxElapsedMs > 0 && CanOverspend(c.config) && c.sh.policy == FRESH_POLICY
    requires c.sh.timer.Some? && c.sh.timer.value.generation == c.sh.life.generation
    requires c.sh.timer.value.fireAt >= c.now
    ensures IsRun(c, run) && IsPatientRun(c, run)
    ensures Sum(Exec(c, run).sh.policy.granted) >= c.config.policy.maxElapsedMs
  {
    var config := c.config.policy;
    var n :| FitSum(config, n) >= config.maxElapsedMs;
    var k := FirstReach(config, n);
    var credit := SLEEP_DRIFT_THRESHOLD_MS + 1 + FitSum(config, k);
    FitSumGrows(config, 1, k);
    OneGrant(config);
    var start;
    run, start := LeftoverWindow(c, s, credit, Top(config, 1));
    var rest := RetryUntil(Exec(c, run), s, start, credit, k);
    RunConcat(c, run, rest);
    run := run + rest;
  }

  lemma OneGrant(config: PolicyConfig)
    requires Top(config, 1) < config.maxElapsedMs
    ensures Attainable(config, 1, Top(config, 1)) && FitSum(config, 1) == Top(config, 1)
    ensures AllTop(config, [Top(config, 1)])
  {
    assert FitSum(config, 0) == 0;
    SumAppend([], Top(config, 1));
    assert [] + [Top(config, 1)] == [Top(config, 1)];
  }

  // ---- Any caller ----

  // Connected, then reconnecting after `delay`.
  lemma FirstDrop(config: Config, delay: nat) returns (run: seq<Event>)
    requires config.reconnectEnabled && Attainable(config.policy, 1, delay) && delay < config.policy.maxElapsedMs
    ensures IsRun(InitialClient(config), run) && IsPatientRun(InitialClient(config), run)
    ensures var c := Exec(InitialClient(config), run);
      && Down(c, 1) && c.config == config && c.sh.life.status.Reconnecting? && !c.sh.life.manuallyDisconnected
      && c.sh.timer == Some(Timer(c.sh.life.generation, c.now + delay))
      && c.sh.policy == FRESH_POLICY.StartWindow(c.now).(attempt := 1, granted := [delay])
  {
    var start := InitialClient(config);
    run := BringUp(start, 0);
    var next := Drop(Exec(start, run), 1, delay);
    RunConcat(start, run, next);
    run := run + next;
  }

  // Ready again before that timer fires.
  lemma LeftoverByHaste(config: Config, delay: nat) returns (run: seq<Event>)
    requires config.reconnectEnabled && Attainable(config.policy, 1, delay) && delay < config.policy.maxElapsedMs
    ensures IsRun(InitialClient(config), run)
    ensures var c := Exec(InitialClient(config), run);
      && Up(c, 2) && c.config == config && c.sh.policy == FRESH_POLICY && c.sh.timer.Some?
      && c.sh.timer.value.generation == c.sh.life.generation && c.sh.timer.value.fireAt >= c.now
  {
    var start := InitialClient(config);
    run := FirstDrop(config, delay);
    var next := BringUp(Exec(start, run), 1);
    RunConcat(start, run, next);
    run := run + next;
  }

  /** Wherever the delays that fit add up to the budget, a caller who connects while reconnecting can make one
      window grant the whole budget or more: connect, lose the connection, connect again before the timer
      fires, let that timer fire late on the ready client, lose the connection, and let every retry fail. */
  lemma ConnectWhileReconnectingOverspends(config: Config) returns (run: seq<Event>)
    requires config.policy.maxElapsedMs > 0 && CanOverspend(config)
    ensures IsRun(InitialClient(config), run)
    ensures Sum(Exec(InitialClient(config), run).sh.policy.granted) >= config.policy.maxElapsedMs
  {
    var start := InitialClient(config);
    var n :| FitSum(config.policy, n) >= config.policy.maxElapsedMs;
    var k := FirstReach(config.policy, n);
    run := LeftoverByHaste(config, Top(config.policy, 1));
    var next := LeftoverOverspends(Exec(start, run), 2);
    RunConcat(start, run, next);
    run := run + next;
  }

  ghost predicate Overspends(config: Config, events: seq<Event>) {
    && IsRun(InitialClient(config), events)
    && Sum(Exec(InitialClient(config), events).sh.policy.granted) >= config.policy.maxElapsedMs
  }

  /** Some run overspends the budget if and only if the delays that fit it one by one add up to it. */
  lemma {:induction false} OverspendsExactly(config: Config)
    requires config.policy.maxElapsedMs > 0
    ensures CanOverspend(config) <==> exists events :: Overspends(config, events)
  {
    if CanOverspend(config) {
      var run := ConnectWhileReconnectingOverspends(config);
      assert Overspends(config, run);
    } else {
      forall events ensures !Overspends(config, events) {
        if IsRun(InitialClient(config), events) {
          IncapableStaysInBudget(config, events);
        }
      }
    }
  }

  // ---- A caller who never connects while reconnecting ----

  // The caller disconnects between a continue signal and its catch, which then schedules a timer for nobody.
  lemma LateSignalLeavesTimer(c: Client, s: nat, delay: nat) returns (run: seq<Event>)
    requires c.config.reconnectEnabled && !c.aborted && c.sh.signals == 1 && c.sh.active.None? && c.sh.timer.None?
    requires c.sh.life.status.Reconnecting? && c.sh.life.nextSessionId == s && forall t :: t in c.attempts ==> t <= s
    requires Attainable(c.config.policy, c.sh.policy.attempt + 1, delay) && c.sh.policy.windowStartedAt.Some?
    requires c.sh.policy.Elapsed(c.now) + delay < c.config.policy.maxElapsedMs
    ensures IsRun(c, run) && IsPatientRun(c, run)
    ensures var after := Exec(c, run);
      && Down(after, s) && after.config == c.config && after.now == c.now && after.sh.life.status.Closed?
      && after.sh.timer == Some(Timer(after.sh.life.generation, c.now + delay))
  {
    run := OneEvent(c, EvDisconnect);
    var closed := Exec(c, run);
    var draw := CatchGrants(closed, delay);
    run := Then(c, run, EvContinueSignal(draw));
  }

  // Ready again after such a disconnect, with that timer left over.
  lemma LeftoverWithoutHaste(config: Config) returns (run: seq<Event>)
    requires config.policy.maxElapsedMs > 0 && config.reconnectEnabled && RetryFits(config.policy)
    ensures IsRun(InitialClient(config), run) && IsPatientRun(InitialClient(config), run)
    ensures var c := Exec(InitialClient(config), run);
      && Up(c, 3) && c.config == config && c.sh.policy == FRESH_POLICY && c.sh.timer.Some?
      && c.sh.timer.value.generation == c.sh.life.generation && c.sh.timer.value.fireAt >= c.now
  {
    var start := InitialClient(config);
    run := DroppedThenFailed(config);
    var second := if config.policy.fullJitter then 0 else Cap(config.policy, 2);
    var next := LateSignalLeavesTimer(Exec(start, run), 2, second);
    RunConcat(start, run, next);
    run := run + next;
    next := BringUp(Exec(start, run), 2);
    RunConcat(start, run, next);
    run := run + next;
  }

  lemma DroppedThenFailed(config: Config) returns (run: seq<Event>)
    requires config.policy.maxElapsedMs > 0 && config.reconnectEnabled && RetryFits(config.policy)
    ensures IsRun(InitialClient(config), run) && IsPatientRun(InitialClient(config), run)
    ensures var c := Exec(InitialClient(config), run);
      var first := if config.policy.fullJitter then 0 else Cap(config.policy, 1);
      && c.config == config && !c.aborted && c.sh.signals == 1 && c.sh.active.None? && c.sh.timer.None?
      && c.sh.life.status.Reconnecting? && c.sh.life.nextSessionId == 2 && (forall t :: t in c.attempts ==> t <= 2)
      && c.sh.policy.attempt == 1 && c.sh.policy.windowStartedAt.Some? && c.sh.policy.Elapsed(c.now) == first
  {
    var start := InitialClient(config);
    var first := if config.policy.fullJitter then 0 else Cap(config.policy, 1);
    run := FirstDrop(config, first);
    var next := FailedRetry(Exec(start, run), 1, 0);
    RunConcat(start, run, next);
    run := run + next;
  }

  /** Even a caller who never connects while reconnecting can overspend, if a second delay fits on top of the
      first: by disconnecting between a failed retry's continue signal and its catch, and connecting again. */
  lemma DisconnectBeforeTheCatchOverspends(config: Config) returns (run: seq<Event>)
    requires config.policy.maxElapsedMs > 0 && CanOverspend(config) && RetryFits(config.policy)
    ensures IsRun(InitialClient(config), run) && IsPatientRun(InitialClient(config), run)
    ensures Sum(Exec(InitialClient(config), run).sh.policy.granted) >= config.policy.maxElapsedMs
  {
    var start := InitialClient(config);
    run := LeftoverWithoutHaste(config);
    var next := LeftoverOverspends(Exec(start, run), 3);
    RunConcat(start, run, next);
    run := run + next;
  }

  // What a patient caller keeps, where no second delay fits on top of the first: timers belong to a
  // reconnecting client without an attempt, and a live window has granted something.
  predicate PatientOk(c: Client) {
    && (c.sh.timer.Some? ==> c.sh.life.status.Reconnecting? && c.sh.active.None?)
    && (c.sh.active.Some? && c.sh.active.value in c.attempts ==>
          c.sh.life.IsCurrent(c.attempts[c.sh.active.value].token))
    && (WindowLive(c) && !c.sh.life.status.Ready? ==> c.sh.policy.granted != [])
  }

  lemma FirstGrantCounts(delays: seq<nat>)
    requires delays != []
    ensures Sum(delays) >= delays[0]
  {
    if |delays| > 1 {
      FirstGrantCounts(delays[..|delays| - 1]);
    }
  }

  // A signal caught after the disconnect finds the first delay consumed, so a second one does not fit.
  lemma LateSignalExhausts(c: Client, draw: Draw)
    requires Inv(c) && BudgetOk(c) && PatientOk(c) && c.sh.signals > 0 && c.sh.life.manuallyDisconnected
    requires !RetryFits(c.config.policy)
    ensures c.sh.policy.DecideNext(c.config.policy, c.now, draw).Exhausted?
  {
    var granted := c.sh.policy.granted;
    FirstGrantCounts(granted);
    assert granted[0] == Cap(c.config.policy, 1);
    CapIsMonotone(c.config.policy, 2, c.sh.policy.attempt + 1);
  }

  lemma SignalKeepsPatient(c: Client, draw: Draw)
    requires Inv(c) && BudgetOk(c) && PatientOk(c) && Possible(c, EvContinueSignal(draw))
    requires !RetryFits(c.config.policy)
    ensures PatientOk(Step(c, EvContinueSignal(draw)))
  {
    if c.sh.life.manuallyDisconnected {
      LateSignalExhausts(c, draw);
    }
  }

  lemma OpenKeepsPatient(c: Client, s: nat, sendable: bool)
    requires Inv(c) && PatientOk(c) && Delivered(c, EvOpen(s, sendable))
    ensures PatientOk(Step(c, EvOpen(s, sendable)))
  {
    if IsTerminal(c.sh, c.attempts[s]) {
      Unmoved(c, s);
    } else {
      Localize(c, s);
    }
  }

  lemma ErrorKeepsPatient(c: Client, s: nat)
    requires Inv(c) && PatientOk(c) && Delivered(c, EvError(s))
    ensures PatientOk(Step(c, EvError(s)))
  {
  }

  lemma TimeoutOrAbortKeepsPatient(c: Client, e: Event)
    requires Inv(c) && PatientOk(c) && Delivered(c, e)
    requires e.EvHandshakeTimeout? || e.EvAbortListener?
    ensures PatientOk(Step(c, e))
  {
    assert AttemptOk(c.sh, e.session, c.attempts[e.session]);
  }

  lemma SharedEventKeepsPatient(c: Client, e: Event)
    requires Inv(c) && PatientOk(c) && Delivered(c, e)
    requires e.EvAbort? || e.EvHeartbeat? || e.EvSend? || e.EvAdvance?
    ensures PatientOk(Step(c, e))
  {
  }

  lemma ConnectKeepsPatient(c: Client, preparation: Preparation)
    requires Inv(c) && PatientOk(c) && !c.sh.life.status.Reconnecting? && c.sh.signals == 0
    requires preparation.PrepareFailed? ==> ClosedAccepts(preparation.error)
    ensures PatientOk(Connect(c, false, preparation))
  {
    ConnectEffect(c, false, preparation);
  }

  lemma DisconnectKeepsPatient(c: Client)
    requires Inv(c) && PatientOk(c)
    ensures PatientOk(Disconnect(c))
  {
    DisconnectEffect(c);
  }

  lemma TimerKeepsPatient(c: Client, preparation: Preparation)
    requires Inv(c) && PatientOk(c) && Delivered(c, EvReconnectTimer(preparation))
    ensures PatientOk(Step(c, EvReconnectTimer(preparation)))
  {
  }

  lemma HandshakeKeepsPatient(c: Client, s: nat, result: HandshakeResult)
    requires Inv(c) && PatientOk(c) && Concerned(c, s) && !IsTerminal(c.sh, c.attempts[s])
    ensures PatientOk(c.With(s, HandleHandshakeResult(c.At(s), result)))
  {
    Localize(c, s);
    match result
    case HandshakeReady =>
    case HandshakeFailed(_) =>
  }

  lemma MessageKeepsPatient(c: Client, s: nat, frame: InFrame)
    requires Inv(c) && PatientOk(c) && Delivered(c, EvMessage(s, frame))
    ensures PatientOk(Step(c, EvMessage(s, frame)))
  {
    if IsTerminal(c.sh, c.attempts[s]) {
      Unmoved(c, s);
    } else if frame.HandshakeControl? || frame.InvalidHandshake? {
      HandshakeKeepsPatient(c, s, ProcessHandshake(frame));
    }
  }

  lemma StopCloseKeepsPatient(c: Client, s: nat, code: CloseCode)
    requires Inv(c) && PatientOk(c) && s in c.attempts && !IsTerminal(c.sh, c.attempts[s])
    ensures PatientOk(c.With(s, HandleStopClose(c.Context(), c.At(s), code)))
  {
    Localize(c, s);
    forall error | !c.attempts[s].cleaned
      ensures PatientOk(c.With(s, FailBeforeReady(c.At(s), error, false)))
      ensures PatientOk(c.With(s, FailAtRuntime(c.At(s), error))) {}
  }

  lemma StartWindowKeepsPatient(c: Client, s: nat, draw: Draw)
    requires Inv(c) && PatientOk(c) && s in c.attempts && c.sh.life.IsCurrent(c.attempts[s].token)
    requires c.attempts[s].phase.PhaseReady?
    ensures PatientOk(c.With(s, HandleStartReconnectWindow(c.Context(), c.At(s), draw)))
  {
    Localize(c, s);
  }

  lemma CloseKeepsPatient(c: Client, s: nat, code: CloseCode, draw: Draw)
    requires Inv(c) && PatientOk(c) && Delivered(c, EvClose(s, code, draw))
    ensures PatientOk(Step(c, EvClose(s, code, draw)))
  {
    if IsTerminal(c.sh, c.attempts[s]) {
      Unmoved(c, s);
    } else {
      Localize(c, s);
      var p := c.At(s);
      match EvaluateReconnectOnClose(code, p.sh.life.manuallyDisconnected, c.aborted,
                                     c.config.reconnectEnabled, p.a.reconnectAttempt, p.a.phase) {
        case ContinueWindow =>
        case StartWindow => StartWindowKeepsPatient(c, s, draw);
        case Stop => StopCloseKeepsPatient(c, s, code);
      }
    }
  }

  lemma StepKeepsPatient(c: Client, e: Event)
    requires Inv(c) && BudgetOk(c) && PatientOk(c) && Delivered(c, e) && CleanPreparation(e) && Patient(c, e)
    requires !RetryFits(c.config.policy)
    ensures PatientOk(Step(c, e)) && Punctual(c, e)
  {
    match e {
      case EvConnect(preparation) => ConnectKeepsPatient(c, preparation);
      case EvDisconnect => DisconnectKeepsPatient(c);
      case EvOpen(s, sendable) => OpenKeepsPatient(c, s, sendable);
      case EvError(s) => ErrorKeepsPatient(c, s);
      case EvHandshakeTimeout(_) => TimeoutOrAbortKeepsPatient(c, e);
      case EvAbortListener(_) => TimeoutOrAbortKeepsPatient(c, e);
      case EvClose(s, code, draw) => CloseKeepsPatient(c, s, code, draw);
      case EvMessage(s, frame) => MessageKeepsPatient(c, s, frame);
      case EvReconnectTimer(preparation) => TimerKeepsPatient(c, preparation);
      case EvContinueSignal(draw) => SignalKeepsPatient(c, draw);
      case EvAbort => SharedEventKeepsPatient(c, e);
      case EvHeartbeat(_) => SharedEventKeepsPatient(c, e);
      case EvSend(_) => SharedEventKeepsPatient(c, e);
      case EvAdvance(_) => SharedEventKeepsPatient(c, e);
    }
  }

  lemma {:induction false} PatientRunIsPunctual(c: Client, events: seq<Event>)
    requires Inv(c) && BudgetOk(c) && PatientOk(c) && IsRun(c, events) && IsPatientRun(c, events)
    requires !RetryFits(c.config.policy)
    ensures IsPunctualRun(c, events)
    decreases |events|
  {
    if events != [] {
      StepKeepsInv(c, events[0]);
      StepKeepsPatient(c, events[0]);
      StepKeepsBudget(c, events[0]);
      StepKeepsConfig(c, events[0]);
      PatientRunIsPunctual(Step(c, events[0]), events[1..]);
    }
  }

  lemma StepKeepsConfig(c: Client, e: Event)
    requires Possible(c, e)
    ensures Step(c, e).config == c.config
  {
  }

  /** A caller who never connects while reconnecting stays in budget where no second delay fits on top of the
      first, even if continue signals are caught late. */
  lemma PatientCallerStaysInBudget(config: Config, events: seq<Event>)
    requires config.policy.maxElapsedMs > 0 && !RetryFits(config.policy)
    requires IsRun(InitialClient(config), events) && IsPatientRun(InitialClient(config), events)
    ensures Sum(Exec(InitialClient(config), events).sh.policy.granted) < config.policy.maxElapsedMs
  {
    InitialInv(config);
    assert Sum([]) == 0;
    PatientRunIsPunctual(InitialClient(config), events);
    WindowStaysInBudget(config, events);
  }

  /** For a caller who never connects while reconnecting, some run overspends if and only if, besides, a
      second delay fits on top of the first. */
  lemma {:induction false} PatientOverspendsExactly(config: Config)
    requires config.policy.maxElapsedMs > 0
    ensures CanOverspend(config) && RetryFits(config.policy) <==>
            exists events :: Overspends(config, events) && IsPatientRun(InitialClient(config), events)
  {
    if CanOverspend(config) && RetryFits(config.policy) {
      var run := DisconnectBeforeTheCatchOverspends(config);
      assert Overspends(config, run);
    } else {
      forall events | Overspends(config, events) ensures !IsPatientRun(InitialClient(config), events) {
        if IsPatientRun(InitialClient(config), events) {
          if CanOverspend(config) {
            PatientCallerStaysInBudget(config, events);
          } else {
            IncapableStaysInBudget(config, events);
          }
          assert false;
        }
      }
    }
  }
}
