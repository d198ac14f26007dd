/** One gateway's statistics: the latency average, the circuit breaker, and both as
    functions of the history of outcomes. */
module GatewayHealth {
  import opened Lifecycle

  datatype GatewayStats = GatewayStats(
    successCount: nat,
    failureCount: nat,
    avgLatencyMs: int,
    costBps: int,
    circuitState: CircuitState,
    consecutiveFailures: nat)

  /** The row the migration seeds. */
  function Seeded(costBps: int): GatewayStats {
    GatewayStats(0, 0, 0, costBps, CLOSED, 0)
  }

  /** `Math.round`: to the nearest integer, halves upwards. */
  function Round(x: real): int {
    (x + 0.5).Floor
  }

  function Average(avg: int, latency: int): int {
    if avg == 0 then latency else Round(avg as real * 0.9 + latency as real * 0.1)
  }

  function OnSuccess(st: GatewayStats, latency: int): GatewayStats {
    st.(successCount := st.successCount + 1,
        consecutiveFailures := 0,
        avgLatencyMs := Average(st.avgLatencyMs, latency),
        circuitState := CLOSED)
  }

  predicate Trips(st: GatewayStats) {
    st.consecutiveFailures + 1 >= 3 && st.circuitState != OPEN
  }

  function OnFailure(st: GatewayStats, latency: int): GatewayStats {
    st.(failureCount := st.failureCount + 1,
        consecutiveFailures := st.consecutiveFailures + 1,
        avgLatencyMs := if latency > 0 then Average(st.avgLatencyMs, latency) else st.avgLatencyMs,
        circuitState := if Trips(st) then OPEN else st.circuitState)
  }

  /** The cooldown check of a ranking; `marked` tells whether the cooldown key was found. */
  function OnCheck(st: GatewayStats, marked: bool): GatewayStats {
    if st.circuitState == OPEN && !marked then st.(circuitState := HALF_OPEN, consecutiveFailures := 0) else st
  }

  // ---------- The breaker as a function of history ----------

  datatype Event = Succeeded(latency: int) | Failed(latency: int) | Checked(marked: bool)

  function Apply(st: GatewayStats, e: Event): GatewayStats {
    match e
    case Succeeded(latency) => OnSuccess(st, latency)
    case Failed(latency) => OnFailure(st, latency)
    case Checked(marked) => OnCheck(st, marked)
  }

  function ApplyAll(st: GatewayStats, history: seq<Event>): GatewayStats {
    if history == [] then st else Apply(ApplyAll(st, history[..|history| - 1]), history[|history| - 1])
  }

  lemma ApplyAllAppend(st: GatewayStats, history: seq<Event>, e: Event)
    ensures ApplyAll(st, history + [e]) == Apply(ApplyAll(st, history), e)
  {
    assert (history + [e])[..|history|] == history;
  }

  function FailuresIn(history: seq<Event>): nat {
    if history == [] then 0
    else FailuresIn(history[..|history| - 1]) + if history[|history| - 1].Failed? then 1 else 0
  }

  /** Position `i` of the history starts a new count: a success, or a check that finds the
      cooldown over when three failures had piled up since the last such position. */
  predicate Resets(history: seq<Event>, i: nat)
    requires i < |history|
    decreases i, 1
  {
    || history[i].Succeeded?
    || (history[i] == Checked(false) && FailuresIn(history[LastReset(history, i)..i]) >= 3)
  }

  /** The first position after the last reset among the first `n` events; 0 if none. */
  function LastReset(history: seq<Event>, n: nat): (k: nat)
    requires n <= |history|
    ensures k <= n
    decreases n, 0
  {
    if n == 0 then 0 else if Resets(history, n - 1) then n else LastReset(history, n - 1)
  }

  /** The failures since the last success or cooldown reset. */
  function FailuresSinceReset(history: seq<Event>): nat {
    FailuresIn(history[LastReset(history, |history|)..])
  }

  lemma FailuresInAppend(history: seq<Event>, e: Event)
    ensures FailuresIn(history + [e]) == FailuresIn(history) + if e.Failed? then 1 else 0
  {
    assert (history + [e])[..|history|] == history;
  }

  lemma {:induction false} LastResetOfPrefix(history: seq<Event>, e: Event, n: nat)
    requires n <= |history|
    ensures LastReset(history + [e], n) == LastReset(history, n)
    ensures n < |history| ==> Resets(history + [e], n) == Resets(history, n)
    decreases n
  {
    var longer := history + [e];
    if n == 0 {
    } else {
      LastResetOfPrefix(history, e, n - 1);
    }
    assert longer[LastReset(longer, n)..n] == history[LastReset(history, n)..n];
  }

  /** How one more event changes the count and the last reset. */
  lemma OneMoreEvent(before: seq<Event>, e: Event)
    ensures var history := before + [e];
            var reset := e.Succeeded? || (e == Checked(false) && FailuresSinceReset(before) >= 3);
            && LastReset(history, |history|) == (if reset then |history| else LastReset(before, |before|))
            && FailuresSinceReset(history) ==
               if reset then 0 else FailuresSinceReset(before) + if e.Failed? then 1 else 0
  {
    var history, n := before + [e], |before|;
    LastResetOfPrefix(before, e, n);
    var k := LastReset(history, n);
    assert history[k..n] == before[k..];
    assert history[k..] == before[k..] + [e];
    FailuresInAppend(before[k..], e);
    assert history[n + 1..] == [];
  }

  /** `consecutiveFailures` is the number of failures since the last reset, the circuit is
      OPEN exactly when there are at least three, and otherwise HALF_OPEN exactly when the
      count was last started by a cooldown check. */
  lemma {:induction false} BreakerFollowsHistory(costBps: int, history: seq<Event>)
    ensures var st := ApplyAll(Seeded(costBps), history);
            var k := LastReset(history, |history|);
            && st.consecutiveFailures == FailuresSinceReset(history)
            && (st.circuitState == OPEN <==> FailuresSinceReset(history) >= 3)
            && (st.circuitState == HALF_OPEN <==>
                  FailuresSinceReset(history) < 3 && k > 0 && history[k - 1].Checked?)
  {
    hide FailuresSinceReset, LastReset, Average;
    if history != [] {
      var n := |history| - 1;
      BreakerFollowsHistory(costBps, history[..n]);
      OneMoreEvent(history[..n], history[n]);
      assert history == history[..n] + [history[n]];
    } else {
      NothingHappened();
    }
  }

  lemma NothingHappened()
    ensures FailuresSinceReset([]) == 0 && LastReset([], 0) == 0
  {
  }

  // ---------- The totals ----------

  function SuccessesIn(history: seq<Event>): nat {
    if history == [] then 0
    else SuccessesIn(history[..|history| - 1]) + if history[|history| - 1].Succeeded? then 1 else 0
  }

  /** The two totals count the two kinds of outcomes, and checks count as neither. */
  lemma {:induction false} TotalsFollowHistory(costBps: int, history: seq<Event>)
    ensures ApplyAll(Seeded(costBps), history).successCount == SuccessesIn(history)
    ensures ApplyAll(Seeded(costBps), history).failureCount == FailuresIn(history)
  {
    hide Average;
    if history == [] {
    } else {
      TotalsFollowHistory(costBps, history[..|history| - 1]);
    }
  }

  // ---------- The latency average ----------

  /** Exact rational rounding in integers. */
  lemma AverageInIntegers(avg: int, latency: int)
    ensures avg != 0 ==> Average(avg, latency) == (9 * avg + latency + 5) / 10
  {
    var x := avg as real * 0.9 + latency as real * 0.1 + 0.5;
    assert x == (9 * avg + latency + 5) as real / 10.0;
    var q := (9 * avg + latency + 5) / 10;
    assert q as real <= x < q as real + 1.0;
  }

  /** The latencies the average takes in: those of all successes, and of failures when
      they are positive. */
  function Samples(history: seq<Event>): seq<int> {
    if history == [] then []
    else
      var before, e := Samples(history[..|history| - 1]), history[|history| - 1];
      if e.Succeeded? || (e.Failed? && e.latency > 0) then before + [e.latency] else before
  }

  /** Nine parts of the past and one of the newest sample, rounded; 0 stands for no past. */
  function MeanOf(samples: seq<int>): int {
    if samples == [] then 0
    else
      var past, newest := MeanOf(samples[..|samples| - 1]), samples[|samples| - 1];
      if past == 0 then newest else (9 * past + newest + 5) / 10
  }

  lemma MeanOfAppend(samples: seq<int>, newest: int)
    ensures var past := MeanOf(samples);
            MeanOf(samples + [newest]) == if past == 0 then newest else (9 * past + newest + 5) / 10
  {
    assert (samples + [newest])[..|samples|] == samples;
  }

  /** The average is that mean of exactly these latencies, in their order. */
  lemma {:induction false} AverageFollowsSamples(costBps: int, history: seq<Event>)
    ensures ApplyAll(Seeded(costBps), history).avgLatencyMs == MeanOf(Samples(history))
  {
    hide Average, MeanOf;
    if history == [] {
      NoMean();
    } else {
      var n := |history| - 1;
      AverageFollowsSamples(costBps, history[..n]);
      if !history[n].Checked? {
        var avg := ApplyAll(Seeded(costBps), history[..n]).avgLatencyMs;
        AverageInIntegers(avg, history[n].latency);
        FirstAverage(history[n].latency);
        MeanOfAppend(Samples(history[..n]), history[n].latency);
      }
    }
  }

  lemma NoMean()
    ensures MeanOf([]) == 0
  {
  }

  lemma FirstAverage(latency: int)
    ensures Average(0, latency) == latency
  {
  }

  /** Latencies the average takes in lie in [lo, hi]. */
  predicate LatenciesWithin(history: seq<Event>, lo: int, hi: int) {
    forall e <- history ::
      && (e.Succeeded? ==> lo <= e.latency <= hi)
      && (e.Failed? && e.latency > 0 ==> lo <= e.latency <= hi)
  }

  lemma {:induction false} AverageStaysWithin(costBps: int, history: seq<Event>, lo: int, hi: int)
    requires 0 < lo <= hi && LatenciesWithin(history, lo, hi)
    ensures var avg := ApplyAll(Seeded(costBps), history).avgLatencyMs; avg == 0 || lo <= avg <= hi
  {
    if history == [] {
    } else {
      var n := |history| - 1;
      assert forall e <- history[..n] :: e in history;
      AverageStaysWithin(costBps, history[..n], lo, hi);
      var avg := ApplyAll(Seeded(costBps), history[..n]).avgLatencyMs;
      assert history[n] in history;
      if !history[n].Checked? {
        AverageInIntegers(avg, history[n].latency);
      }
    }
  }

  /** The average after `k` further outcomes of one latency. */
  function Repeated(avg: int, latency: int, k: nat): int {
    if k == 0 then avg else Average(Repeated(avg, latency, k - 1), latency)
  }

  function Distance(a: int, b: int): nat {
    if a < b then b - a else a - b
  }

  predicate InBand(avg: int, latency: int) {
    latency - 4 <= avg <= latency + 5
  }

  /** One more outcome moves the average toward the latency without passing it, unless it
      is already in the band, where it stays put. */
  lemma AverageApproaches(avg: int, latency: int)
    requires avg > 0 && latency > 0
    ensures var next := Average(avg, latency);
            && next > 0
            && (next == avg <==> InBand(avg, latency))
            && (avg < latency - 4 ==> avg < next <= latency)
            && (avg > latency + 5 ==> latency <= next < avg)
  {
    AverageInIntegers(avg, latency);
  }

  /** What one outcome with a positive latency does to the average: the first one becomes
      it, and later ones move it toward them, or leave it in the band around them. */
  lemma OutcomesMoveTheAverage(st: GatewayStats, e: Event)
    requires !e.Checked? && e.latency > 0 && st.avgLatencyMs >= 0
    ensures var avg, next := st.avgLatencyMs, Apply(st, e).avgLatencyMs;
            && next > 0
            && (avg == 0 ==> next == e.latency)
            && (avg > 0 ==> (next == avg <==> InBand(avg, e.latency)))
            && (0 < avg < e.latency - 4 ==> avg < next <= e.latency)
            && (avg > e.latency + 5 ==> e.latency <= next < avg)
  {
    hide Average;
    if st.avgLatencyMs == 0 {
      FirstAverage(e.latency);
    } else {
      AverageApproaches(st.avgLatencyMs, e.latency);
    }
  }

  /** Under a constant latency the average settles inside [latency - 4, latency + 5] after
      finitely many outcomes, and stays at that value for good. */
  lemma {:induction false} AverageSettles(avg: int, latency: int, k: nat)
    requires avg > 0 && latency > 0 && k >= Distance(avg, latency)
    ensures InBand(Repeated(avg, latency, k), latency)
    ensures Repeated(avg, latency, k + 1) == Repeated(avg, latency, k)
  {
    RepeatedNearer(avg, latency, k);
    AverageApproaches(Repeated(avg, latency, k), latency);
  }

  lemma {:induction false} RepeatedNearer(avg: int, latency: int, k: nat)
    requires avg > 0 && latency > 0
    ensures Repeated(avg, latency, k) > 0
    ensures InBand(Repeated(avg, latency, k), latency) ||
            Distance(Repeated(avg, latency, k), latency) + k <= Distance(avg, latency)
  {
    if k == 0 {
    } else {
      RepeatedNearer(avg, latency, k - 1);
      AverageApproaches(Repeated(avg, latency, k - 1), latency);
    }
  }
}
