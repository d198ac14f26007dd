/** `RoutingEngineService`: the statistics table, the cooldown keys in Redis, and the three
    operations on them. Line numbers below refer to src/gateways/routing-engine.service.ts. */
module RoutingEngine {
  import opened Lifecycle
  import opened GatewayHealth
  import opened Redis
  import opened Routing

  const COOLDOWN: Time := 30

  /** What the engine reads and writes. */
  datatype Engine = Engine(table: map<GatewayProvider, GatewayStats>, redis: RedisState)

  function RecordedSuccess(e: Engine, g: GatewayProvider, latency: int, up: bool): Engine {
    if g !in e.table then e
    else
      Engine(e.table[g := OnSuccess(e.table[g], latency)],
             if e.table[g].circuitState != CLOSED then DelResult(e.redis, CircuitOpen(g), up) else e.redis)
  }

  function RecordedFailure(e: Engine, g: GatewayProvider, latency: int, now: Time, up: bool): Engine {
    if g !in e.table then e
    else
      Engine(e.table[g := OnFailure(e.table[g], latency)],
             if Trips(e.table[g]) then SetResult(e.redis, CircuitOpen(g), OpenMark, None, Some(COOLDOWN), now, up).st
             else e.redis)
  }

  /** The row of one gateway after the cooldown check, whose GET `up` lets through or not. */
  function CheckedRow(e: Engine, g: GatewayProvider, now: Time, up: bool): GatewayStats
    requires g in e.table
  {
    OnCheck(e.table[g], Lookup(Tried(e.redis, up), CircuitOpen(g), now).Some?)
  }

  /** No GET of the checks fails. */
  predicate AllReached(e: Engine, listing: seq<GatewayProvider>, up: GatewayProvider -> bool)
    requires forall g <- listing :: g in e.table
  {
    forall g <- listing :: e.table[g].circuitState == OPEN ==> up(g)
  }

  /** The cooldown checks of a ranking: one GET for each OPEN gateway, all of them issued
      before any answer comes. */
  function CheckedAll(e: Engine, listing: seq<GatewayProvider>, now: Time, up: GatewayProvider -> bool): Engine
    requires forall g <- listing :: g in e.table
  {
    Engine(map g | g in e.table :: if g in listing then CheckedRow(e, g, now, up(g)) else e.table[g],
           Tried(e.redis, AllReached(e, listing, up)))
  }

  /** The checks of a ranking record no outcome. */
  lemma ChecksKeepTotals(
      e: Engine, listing: seq<GatewayProvider>, now: Time, up: GatewayProvider -> bool, g: GatewayProvider)
    requires (forall x <- listing :: x in e.table) && g in e.table
    ensures var before, after := e.table[g], CheckedAll(e, listing, now, up).table;
            && g in after
            && after[g].successCount == before.successCount && after[g].failureCount == before.failureCount
            && after[g].avgLatencyMs == before.avgLatencyMs && after[g].costBps == before.costBps
            && (after[g] != before ==> before.circuitState == OPEN && after[g].circuitState == HALF_OPEN)
  {
  }

  /** One more check, of a gateway not checked before. */
  lemma CheckOneMore(e: Engine, listing: seq<GatewayProvider>, g: GatewayProvider, now: Time,
                     up: GatewayProvider -> bool, amount: int)
    requires (forall x <- listing :: x in e.table) && g in e.table && g !in listing
    ensures var before, after := CheckedAll(e, listing, now, up), CheckedAll(e, listing + [g], now, up);
            && before.table[g] == e.table[g]
            && after.table == before.table[g := CheckedRow(e, g, now, up(g))]
            && after.redis == Tried(before.redis, e.table[g].circuitState == OPEN ==> up(g))
            && Candidates(after.table, listing + [g], amount) ==
               Candidates(before.table, listing, amount) + [Candidate(g, Score(after.table[g], amount), after.table[g])]
  {
    hide CheckedRow, Score;
    assert forall x :: x in listing + [g] <==> x in listing || x == g;
    assert AllReached(e, listing + [g], up) <==>
           AllReached(e, listing, up) && (e.table[g].circuitState == OPEN ==> up(g));
  }

  lemma NothingChecked(e: Engine, now: Time, up: GatewayProvider -> bool, amount: int)
    ensures CheckedAll(e, [], now, up) == e && Candidates(e.table, [], amount) == []
  {
    hide CheckedRow;
    assert CheckedAll(e, [], now, up).table == e.table;
  }

  class RoutingEngineService {
    const redisService: RedisService
    var stats: map<GatewayProvider, GatewayStats>

    function State(): Engine
      reads this, redisService
    {
      Engine(stats, redisService.State())
    }

    /** The table as the migration seeds it. */
    constructor (redisService: RedisService)
      ensures this.redisService == redisService
      ensures stats == SEEDED
    {
      this.redisService := redisService;
      stats := SEEDED;
    }

    method RecordSuccess(gateway: GatewayProvider, latencyMs: int, up: bool)
      modifies this, redisService
      ensures State() == RecordedSuccess(old(State()), gateway, latencyMs, up)
    {
      if gateway !in stats {
        return;
      }
      var row := stats[gateway];
      row := row.(successCount := row.successCount + 1);
      row := row.(consecutiveFailures := 0);
      row := row.(avgLatencyMs :=
        if row.avgLatencyMs == 0 then latencyMs
        else Round(row.avgLatencyMs as real * 0.9 + latencyMs as real * 0.1));
      if row.circuitState != CLOSED {
        row := row.(circuitState := CLOSED);
        redisService.Del(CircuitOpen(gateway), up);
      }
      stats := stats[gateway := row];
    }

    method RecordFailure(gateway: GatewayProvider, latencyMs: int, now: Time, up: bool)
      modifies this, redisService
      ensures State() == RecordedFailure(old(State()), gateway, latencyMs, now, up)
    {
      if gateway !in stats {
        return;
      }
      var row := stats[gateway];
      row := row.(failureCount := row.failureCount + 1);
      row := row.(consecutiveFailures := row.consecutiveFailures + 1);
      if latencyMs > 0 {
        row := row.(avgLatencyMs :=
          if row.avgLatencyMs == 0 then latencyMs
          else Round(row.avgLatencyMs as real * 0.9 + latencyMs as real * 0.1));
      }
      if row.consecutiveFailures >= 3 && row.circuitState != OPEN {
        row := row.(circuitState := OPEN);
        var _ := redisService.Set(CircuitOpen(gateway), OpenMark, None, Some(COOLDOWN), now, up);
      }
      stats := stats[gateway := row];
    }

    /** Lines 50-64 of the callback for one gateway, in a ranking that began in mode `inMemory`. */
    method Check(gateway: GatewayProvider, inMemory: bool, now: Time, up: bool) returns (row: GatewayStats)
      requires gateway in stats && (inMemory ==> redisService.isMockMode)
      modifies this, redisService
      ensures stats == old(stats)[gateway := row]
      ensures row == OnCheck(old(stats[gateway]), Lookup(old(redisService.State()).(isMockMode := inMemory || !up),
                                                         CircuitOpen(gateway), now).Some?)
      ensures redisService.State() ==
              Tried(old(redisService.State()), inMemory || (old(stats[gateway]).circuitState == OPEN ==> up))
    {
      hide Lookup;
      row := stats[gateway];
      if row.circuitState == OPEN {
        var isTripped := redisService.Await(CircuitOpen(gateway), inMemory, now, up);
        if isTripped.None? {
          row := row.(circuitState := HALF_OPEN, consecutiveFailures := 0);
        }
      }
      stats := stats[gateway := row];
    }

    /** `listing` is what `find()` gives after the filter on configured gateways. */
    method GetRankedGateways(amount: int, listing: seq<GatewayProvider>, now: Time, up: GatewayProvider -> bool)
      returns (ranking: seq<GatewayProvider>)
      requires (forall g <- listing :: g in stats) && Distinct(listing)
      modifies this, redisService
      ensures State() == CheckedAll(old(State()), listing, now, up)
      ensures forall g <- listing :: g in stats
      ensures ranking == Ranked(stats, listing, amount)
    {
      hide Score, Lookup, OnCheck, RankedCandidates, Providers, CheckedAll, Candidates;
      ghost var e := State();
      var inMemory := redisService.isMockMode;
      var candidates: seq<Candidate> := [];
      NothingChecked(e, now, up, amount);
      for i := 0 to |listing|
        invariant State() == CheckedAll(e, listing[..i], now, up)
        invariant forall g <- listing :: g in stats
        invariant candidates == Candidates(stats, listing[..i], amount)
        invariant inMemory ==> redisService.isMockMode
        invariant redisService.State().(isMockMode := inMemory) == e.redis
      {
        assert listing[i] !in listing[..i];
        assert listing[..i + 1] == listing[..i] + [listing[i]];
        CheckOneMore(e, listing[..i], listing[i], now, up, amount);
        var row := Check(listing[i], inMemory, now, up(listing[i]));
        candidates := candidates + [Candidate(listing[i], Score(row, amount), row)];
      }
      assert listing[..|listing|] == listing;
      ranking := Providers(RankedCandidates(candidates));
    }
  }

  const SEEDED: map<GatewayProvider, GatewayStats> :=
    map[STRIPE := Seeded(290), RAZORPAY := Seeded(200), PAYU := Seeded(190), UPI := Seeded(50)]

  // ---------- Runs of the engine ----------

  datatype Op =
    | Success(gateway: GatewayProvider, latency: int, now: Time, up: bool)
    | Failure(gateway: GatewayProvider, latency: int, now: Time, up: bool)
    | Ranking(amount: int, listing: seq<GatewayProvider>, now: Time, reached: GatewayProvider -> bool)
    | Elsewhere(call: Call, now: Time)          // a call by another user of the shared service

  predicate Possible(e: Engine, op: Op) {
    match op
    case Ranking(_, listing, _, _) => Distinct(listing) && forall g <- listing :: g in e.table
    case Elsewhere(call, _) => call.key.Idempotency?
    case _ => true
  }

  function AfterOp(e: Engine, op: Op): Engine
    requires Possible(e, op)
  {
    match op
    case Success(g, latency, _, up) => RecordedSuccess(e, g, latency, up)
    case Failure(g, latency, now, up) => RecordedFailure(e, g, latency, now, up)
    case Ranking(_, listing, now, reached) => CheckedAll(e, listing, now, reached)
    case Elsewhere(call, _) => e.(redis := After(e.redis, call))
  }

  /** A run: the engine's states, the operation between each two, and a clock that never
      goes back. Redis may fail at any single call, and the other users of the shared
      service may bring about the switch to memory between any two operations. */
  predicate EngineRun(states: seq<Engine>, ops: seq<Op>) {
    && |states| == |ops| + 1
    && states[0] == Engine(SEEDED, EMPTY)
    && (forall i :: 0 <= i < |ops| ==> Possible(states[i], ops[i]) && states[i + 1] == AfterOp(states[i], ops[i]))
    && (forall i, j :: 0 <= i <= j < |ops| ==> ops[i].now <= ops[j].now)
  }

  // ---------- Each gateway sees a history ----------

  lemma NoEvents(st: GatewayStats)
    ensures ApplyAll(st, []) == st && Outcomes([]) == []
  {
  }

  /** The outcomes in a history, without the checks. */
  function Outcomes(history: seq<Event>): seq<Event> {
    if history == [] then []
    else
      var before, e := Outcomes(history[..|history| - 1]), history[|history| - 1];
      if e.Checked? then before else before + [e]
  }

  /** What the operations of a run record for gateway `g`. */
  function OutcomesOf(ops: seq<Op>, g: GatewayProvider): seq<Event> {
    if ops == [] then []
    else
      var before := OutcomesOf(ops[..|ops| - 1], g);
      match ops[|ops| - 1]
      case Success(x, latency, _, _) => if x == g then before + [Event.Succeeded(latency)] else before
      case Failure(x, latency, _, _) => if x == g then before + [Event.Failed(latency)] else before
      case _ => before
  }

  lemma OutcomesOfAppend(history: seq<Event>, e: Event)
    ensures Outcomes(history + [e]) == if e.Checked? then Outcomes(history) else Outcomes(history) + [e]
  {
    assert (history + [e])[..|history|] == history;
  }

  /** In every run each gateway's row is the seeded row after some history of outcomes and
      checks, so everything proved of histories holds of the table. The outcomes are those
      recorded for this gateway and no other's, in their order. */
  lemma {:induction false} RowsFollowHistories(states: seq<Engine>, ops: seq<Op>, i: nat, g: GatewayProvider)
    returns (h: seq<Event>)
    requires EngineRun(states, ops) && i < |states|
    ensures g in SEEDED && g in states[i].table
    ensures states[i].table[g] == ApplyAll(SEEDED[g], h)
    ensures Outcomes(h) == OutcomesOf(ops[..i], g)
  {
    hide Average, Lookup, Tried, Trips, ApplyAll, Outcomes;
    assert g == STRIPE || g == RAZORPAY || g == PAYU || g == UPI;
    NoEvents(SEEDED[g]);
    if i == 0 {
      h := [];
    } else {
      h := RowsFollowHistories(states, ops, i - 1, g);
      assert ops[..i][..i - 1] == ops[..i - 1];
      var e := states[i - 1];
      match ops[i - 1]
      case Success(x, latency, _, _) => h := OneMore(SEEDED[g], h, Event.Succeeded(latency), x == g);
      case Failure(x, latency, _, _) => h := OneMore(SEEDED[g], h, Event.Failed(latency), x == g);
      case Ranking(_, listing, now, reached) =>
        var check := Event.Checked(Lookup(Tried(e.redis, reached(g)), CircuitOpen(g), now).Some?);
        h := OneMore(SEEDED[g], h, check, g in listing);
      case Elsewhere(_, _) =>
    }
  }

  lemma OneMore(st: GatewayStats, history: seq<Event>, e: Event, takes: bool) returns (h: seq<Event>)
    ensures ApplyAll(st, h) == if takes then Apply(ApplyAll(st, history), e) else ApplyAll(st, history)
    ensures Outcomes(h) == if takes && !e.Checked? then Outcomes(history) + [e] else Outcomes(history)
  {
    h := if takes then history + [e] else history;
    ApplyAllAppend(st, history, e);
    OutcomesOfAppend(history, e);
  }

  lemma {:induction false} ChecksAreNotCounted(history: seq<Event>)
    ensures SuccessesIn(history) == SuccessesIn(Outcomes(history))
    ensures FailuresIn(history) == FailuresIn(Outcomes(history))
    ensures Samples(history) == Samples(Outcomes(history))
  {
    if history == [] {
    } else {
      var before, e := history[..|history| - 1], history[|history| - 1];
      ChecksAreNotCounted(before);
      assert !e.Checked? ==> Outcomes(history)[..|Outcomes(before)|] == Outcomes(before);
    }
  }

  /** In every run a gateway's totals count the outcomes recorded for it, and its average is
      the mean of their latencies, whatever is recorded for the others. */
  lemma TotalsFollowOutcomes(states: seq<Engine>, ops: seq<Op>, i: nat, g: GatewayProvider)
    requires EngineRun(states, ops) && i < |states|
    ensures g in states[i].table
    ensures var row, outcomes := states[i].table[g], OutcomesOf(ops[..i], g);
            && row.successCount == SuccessesIn(outcomes)
            && row.failureCount == FailuresIn(outcomes)
            && row.avgLatencyMs == MeanOf(Samples(outcomes))
  {
    hide ApplyAll, Outcomes, OutcomesOf, SuccessesIn, FailuresIn, MeanOf, Samples, EngineRun;
    var h := RowsFollowHistories(states, ops, i, g);
    ChecksAreNotCounted(h);
    TotalsFollowHistory(SEEDED[g].costBps, h);
    AverageFollowsSamples(SEEDED[g].costBps, h);
  }

  /** In every reachable state of the engine the circuit is OPEN exactly at three or more
      consecutive failures. */
  lemma OpenMeansThreeFailures(states: seq<Engine>, ops: seq<Op>, i: nat, g: GatewayProvider)
    requires EngineRun(states, ops) && i < |states|
    ensures g in SEEDED && g in states[i].table
    ensures states[i].table[g].circuitState == OPEN <==> states[i].table[g].consecutiveFailures >= 3
    ensures states[i].table[g].costBps == SEEDED[g].costBps
  {
    var h := RowsFollowHistories(states, ops, i, g);
    BreakerFollowsHistory(SEEDED[g].costBps, h);
    CostsStay(SEEDED[g], h);
  }

  lemma {:induction false} CostsStay(st: GatewayStats, history: seq<Event>)
    ensures ApplyAll(st, history).costBps == st.costBps
  {
    if history == [] {
    } else {
      CostsStay(st, history[..|history| - 1]);
    }
  }

  lemma CostsAreNeverNegative(states: seq<Engine>, ops: seq<Op>, i: nat)
    requires EngineRun(states, ops) && i < |states|
    ensures NonNegativeCosts(states[i].table)
  {
    var table := states[i].table;
    forall g | g in table
      ensures table[g].costBps >= 0
    {
      OpenMeansThreeFailures(states, ops, i, g);
    }
  }

  /** In every reachable state the costs are those the migration seeds. */
  lemma CostsAreSeeded(states: seq<Engine>, ops: seq<Op>, i: nat)
    requires EngineRun(states, ops) && i < |states|
    ensures var table := states[i].table;
            && table.Keys == {STRIPE, RAZORPAY, PAYU, UPI}
            && table[STRIPE].costBps == 290 && table[RAZORPAY].costBps == 200
            && table[PAYU].costBps == 190 && table[UPI].costBps == 50
  {
    hide EngineRun;
    OpenMeansThreeFailures(states, ops, i, STRIPE);
    OpenMeansThreeFailures(states, ops, i, RAZORPAY);
    OpenMeansThreeFailures(states, ops, i, PAYU);
    OpenMeansThreeFailures(states, ops, i, UPI);
    forall g | g in states[i].table
      ensures g in {STRIPE, RAZORPAY, PAYU, UPI}
    {
      assert g == STRIPE || g == RAZORPAY || g == PAYU || g == UPI;
    }
  }

  /** Before the first outcome the cheaper gateway comes first, at every amount. */
  lemma SeededRanking(amount: int)
    ensures Ranked(SEEDED, [STRIPE, RAZORPAY, PAYU, UPI], amount) == [UPI, PAYU, RAZORPAY, STRIPE]
  {
    hide Ranked;
    RankingIsByStanding(SEEDED, [STRIPE, RAZORPAY, PAYU, UPI], amount, [UPI, PAYU, RAZORPAY, STRIPE]);
  }

  // ---------- Cooldown ----------

  /** A cooldown key that can be seen belongs to an OPEN gateway. */
  predicate KeysMeanOpen(e: Engine, now: Time) {
    && (forall g :: Lookup(e.redis, CircuitOpen(g), now).Some? ==> g in e.table && e.table[g].circuitState == OPEN)
    && (!e.redis.isMockMode ==> forall g :: CircuitOpen(g) !in e.redis.mockStore)
  }

  lemma RankingKeepsKeys(e: Engine, op: Op)
    requires op.Ranking? && Possible(e, op) && KeysMeanOpen(e, op.now)
    ensures KeysMeanOpen(AfterOp(e, op), op.now)
  {
    hide Distinct;
  }

  lemma OutcomeKeepsKeys(e: Engine, op: Op)
    requires (op.Success? || op.Failure?) && KeysMeanOpen(e, op.now)
    ensures KeysMeanOpen(AfterOp(e, op), op.now)
  {
    hide Average, CheckedAll;
  }

  lemma ElsewhereKeepsKeys(e: Engine, op: Op)
    requires op.Elsewhere? && Possible(e, op) && KeysMeanOpen(e, op.now)
    ensures KeysMeanOpen(AfterOp(e, op), op.now)
  {
  }

  lemma OpKeepsKeys(e: Engine, op: Op)
    requires Possible(e, op) && KeysMeanOpen(e, op.now)
    ensures KeysMeanOpen(AfterOp(e, op), op.now)
  {
    hide Possible, KeysMeanOpen, AfterOp;
    match op
    case Ranking(_, _, _, _) => RankingKeepsKeys(e, op);
    case Elsewhere(_, _) => ElsewhereKeepsKeys(e, op);
    case _ => OutcomeKeepsKeys(e, op);
  }

  /** Whatever Redis fails at, in every reachable state a cooldown key that a GET would
      find, now or later, belongs to an OPEN gateway. */
  lemma {:induction false} VisibleKeyMeansOpen(states: seq<Engine>, ops: seq<Op>, i: nat, now: Time)
    requires EngineRun(states, ops) && i < |states|
    requires i > 0 ==> ops[i - 1].now <= now
    ensures KeysMeanOpen(states[i], now)
  {
    hide AfterOp;
    if i == 0 {
    } else {
      VisibleKeyMeansOpen(states, ops, i - 1, ops[i - 1].now);
      OpKeepsKeys(states[i - 1], ops[i - 1]);
    }
  }

  /** A gateway that tripped, with its key put on the server or into memory. In memory it
      stays OPEN for good. On the server it is OPEN as long as its key is there, and is no
      longer OPEN only after the deadline; if Redis has gone to memory since, memory holds
      no key for it. */
  predicate Tracked(e: Engine, g: GatewayProvider, deadline: Time, onServer: bool, now: Time) {
    && g in e.table
    && if onServer && e.redis.isMockMode then CircuitOpen(g) !in e.redis.mockStore
       else if onServer then
         if e.table[g].circuitState == OPEN then
           CircuitOpen(g) in e.redis.server && e.redis.server[CircuitOpen(g)].expiresAt == Some(deadline)
         else deadline <= now
       else e.redis.isMockMode && e.table[g].circuitState == OPEN && CircuitOpen(g) in e.redis.mockStore
  }

  /** The failure that makes it trip. */
  predicate TripOf(e: Engine, op: Op, g: GatewayProvider) {
    op.Failure? && op.gateway == g && g in e.table && Trips(e.table[g])
  }

  lemma TripIsTracked(e: Engine, op: Op, g: GatewayProvider)
    requires TripOf(e, op, g)
    ensures Tracked(AfterOp(e, op), g, op.now + 30, !AfterOp(e, op).redis.isMockMode, op.now)
  {
  }

  lemma RankingKeepsTracked(e: Engine, op: Op, g: GatewayProvider, deadline: Time, onServer: bool, now: Time)
    requires op.Ranking? && Possible(e, op) && KeysMeanOpen(e, op.now) && now <= op.now
    requires Tracked(e, g, deadline, onServer, now)
    ensures Tracked(AfterOp(e, op), g, deadline, onServer, op.now)
  {
    hide Average, Distinct;
  }

  lemma OutcomeKeepsTracked(e: Engine, op: Op, g: GatewayProvider, deadline: Time, onServer: bool, now: Time)
    requires !op.Ranking? && Possible(e, op) && KeysMeanOpen(e, op.now) && now <= op.now
    requires Tracked(e, g, deadline, onServer, now)
    requires !TripOf(e, op, g) && !(op.Success? && op.gateway == g)
    ensures Tracked(AfterOp(e, op), g, deadline, onServer, op.now)
  {
    hide Average, Distinct, CheckedAll;
  }

  lemma OpKeepsTracked(e: Engine, op: Op, g: GatewayProvider, deadline: Time, onServer: bool, now: Time)
    requires Possible(e, op) && KeysMeanOpen(e, op.now) && now <= op.now && Tracked(e, g, deadline, onServer, now)
    requires !TripOf(e, op, g) && !(op.Success? && op.gateway == g)
    ensures Tracked(AfterOp(e, op), g, deadline, onServer, op.now)
  {
    hide Tracked, KeysMeanOpen, Possible, AfterOp, TripOf;
    if op.Ranking? {
      RankingKeepsTracked(e, op, g, deadline, onServer, now);
    } else {
      OutcomeKeepsTracked(e, op, g, deadline, onServer, now);
    }
  }

  lemma {:induction false} StaysTracked(
      states: seq<Engine>, ops: seq<Op>, i: nat, j: nat, g: GatewayProvider, deadline: Time, onServer: bool)
    requires EngineRun(states, ops) && 0 < i <= j < |states|
    requires Tracked(states[i], g, deadline, onServer, ops[i - 1].now)
    requires forall k :: i <= k < j ==> !TripOf(states[k], ops[k], g) && !(ops[k].Success? && ops[k].gateway == g)
    ensures Tracked(states[j], g, deadline, onServer, ops[j - 1].now)
  {
    hide AfterOp, Tracked, KeysMeanOpen, TripOf;
    if i == j {
    } else {
      StaysTracked(states, ops, i, j - 1, g, deadline, onServer);
      VisibleKeyMeansOpen(states, ops, j - 1, ops[j - 1].now);
      OpKeepsTracked(states[j - 1], ops[j - 1], g, deadline, onServer, ops[j - 2].now);
    }
  }

  /** A gateway whose last trip is operation `i`, with no success since, and a ranking at
      operation `j` that lists it. Unless every configured gateway is OPEN, it is ranked
      exactly if its key was stored on the server and is not found there: 30 s have passed,
      Redis has gone to memory in between, or fails at this very GET. A key stored in
      memory keeps it out for good. */
  lemma TrippedGatewayIsRankedIff(states: seq<Engine>, ops: seq<Op>, i: nat, j: nat, g: GatewayProvider)
    requires EngineRun(states, ops) && i < j < |ops|
    requires TripOf(states[i], ops[i], g)
    requires forall k :: i < k < j ==>
               !TripOf(states[k], ops[k], g) && !(ops[k].Success? && ops[k].gateway == g)
    requires ops[j].Ranking? && g in ops[j].listing
    ensures var table := states[j + 1].table;
            && (forall x <- ops[j].listing :: x in table)
            && (g in Ranked(table, ops[j].listing, ops[j].amount) <==>
                  || AllOpen(table, ops[j].listing)
                  || (!states[i + 1].redis.isMockMode &&
                      (ops[j].now >= ops[i].now + 30 || states[j].redis.isMockMode || !ops[j].reached(g))))
  {
    hide AfterOp, Tracked, KeysMeanOpen, Ranked, AllOpen, NonNegativeCosts, TripOf;
    var deadline, onServer := ops[i].now + 30, !states[i + 1].redis.isMockMode;
    TripIsTracked(states[i], ops[i], g);
    StaysTracked(states, ops, i + 1, j, g, deadline, onServer);
    VisibleKeyMeansOpen(states, ops, j, ops[j].now);
    RankingFindsTheKey(states[j], ops[j], g, deadline, onServer, ops[j - 1].now);
    CostsAreNeverNegative(states, ops, j + 1);
    RankedUnlessOpen(states[j + 1].table, ops[j].listing, ops[j].amount, g);
  }

  lemma RankingFindsTheKey(e: Engine, op: Op, g: GatewayProvider, deadline: Time, onServer: bool, now: Time)
    requires op.Ranking? && Possible(e, op) && now <= op.now && g in op.listing
    requires Tracked(e, g, deadline, onServer, now) && KeysMeanOpen(e, op.now)
    ensures AfterOp(e, op).table.Keys == e.table.Keys
    ensures AfterOp(e, op).table[g].circuitState == OPEN <==>
              !(onServer && (deadline <= op.now || e.redis.isMockMode || !op.reached(g)))
  {
    hide Average, Distinct;
  }

  lemma RankedUnlessOpen(
      table: map<GatewayProvider, GatewayStats>, listing: seq<GatewayProvider>, amount: int, g: GatewayProvider)
    requires (forall x <- listing :: x in table) && Distinct(listing) && NonNegativeCosts(table) && g in listing
    ensures g in Ranked(table, listing, amount) <==> AllOpen(table, listing) || table[g].circuitState != OPEN
  {
    hide Ranked;
    RankingMembers(table, listing, amount);
  }

  /** The cooldown really can be lost: one second after its trip a gateway is ranked beside
      one that is not OPEN, because the GET of its key fails. */
  lemma CooldownCanBeLost() returns (states: seq<Engine>, ops: seq<Op>)
    ensures EngineRun(states, ops) && |ops| == 4
    ensures TripOf(states[2], ops[2], STRIPE) && ops[2].now == 0
    ensures ops[3].Ranking? && ops[3].listing == [STRIPE, UPI] && ops[3].now == 1
    ensures var table := states[4].table;
            && STRIPE in table && UPI in table && table[UPI].circuitState != OPEN
            && STRIPE in Ranked(table, [STRIPE, UPI], ops[3].amount)
  {
    hide Ranked, Average;
    var fail := Failure(STRIPE, 0, 0, true);
    var rank := Ranking(1, [STRIPE, UPI], 1, (g: GatewayProvider) => false);
    var e0 := Engine(SEEDED, EMPTY);
    var e1 := AfterOp(e0, fail);
    var e2 := AfterOp(e1, fail);
    var e3 := AfterOp(e2, fail);
    states, ops := [e0, e1, e2, e3, AfterOp(e3, rank)], [fail, fail, fail, rank];
    TrippedGatewayIsRankedIff(states, ops, 2, 3, STRIPE);
  }

  // ---------- HALF_OPEN ----------

  predicate HalfOpen(e: Engine, g: GatewayProvider) {
    g in e.table && e.table[g].circuitState == HALF_OPEN
  }

  predicate OutcomeOf(op: Op, g: GatewayProvider) {
    (op.Success? || op.Failure?) && op.gateway == g
  }

  lemma OpKeepsHalfOpen(e: Engine, op: Op, g: GatewayProvider)
    requires Possible(e, op) && HalfOpen(e, g) && !OutcomeOf(op, g)
    ensures HalfOpen(AfterOp(e, op), g)
  {
    hide Average, Lookup, Distinct;
  }

  lemma {:induction false} StaysHalfOpen(states: seq<Engine>, ops: seq<Op>, i: nat, j: nat, g: GatewayProvider)
    requires EngineRun(states, ops) && i <= j < |states| && HalfOpen(states[i], g)
    requires forall k :: i <= k < j ==> !OutcomeOf(ops[k], g)
    ensures HalfOpen(states[j], g)
  {
    hide AfterOp, HalfOpen, OutcomeOf;
    if i == j {
    } else {
      StaysHalfOpen(states, ops, i, j - 1, g);
      OpKeepsHalfOpen(states[j - 1], ops[j - 1], g);
    }
  }

  /** Operation `k` is a ranking for which gateway `g` is configured. */
  predicate Lists(ops: seq<Op>, k: nat, g: GatewayProvider)
    requires k < |ops|
  {
    ops[k].Ranking? && g in ops[k].listing
  }

  /** Operation `k` is a ranking that offers `g` to its caller. */
  predicate Offers(states: seq<Engine>, ops: seq<Op>, k: nat, g: GatewayProvider)
    requires k < |ops| < |states|
  {
    && ops[k].Ranking?
    && (forall x <- ops[k].listing :: x in states[k + 1].table)
    && g in Ranked(states[k + 1].table, ops[k].listing, ops[k].amount)
  }

  /** HALF_OPEN holds nobody back: from the operation that brings it about until the next
      outcome of the gateway, it is offered by every single ranking that lists it. */
  lemma HalfOpenIsOfferedIff(states: seq<Engine>, ops: seq<Op>, i: nat, k: nat, g: GatewayProvider)
    requires EngineRun(states, ops) && i <= k < |ops| && HalfOpen(states[i + 1], g)
    requires forall m :: i < m <= k ==> !OutcomeOf(ops[m], g)
    ensures Offers(states, ops, k, g) <==> Lists(ops, k, g)
  {
    hide AfterOp, Ranked, AllOpen, NonNegativeCosts;
    StaysHalfOpen(states, ops, i + 1, k + 1, g);
    if ops[k].Ranking? {
      CostsAreNeverNegative(states, ops, k + 1);
      RankingKeepsListing(states[k], ops[k]);
      RankingMembers(states[k + 1].table, ops[k].listing, ops[k].amount);
    }
  }

  lemma RankingKeepsListing(e: Engine, op: Op)
    requires op.Ranking? && Possible(e, op)
    ensures Distinct(op.listing) && forall x <- op.listing :: x in AfterOp(e, op).table
  {
  }

  /** The promise of a single probe, for the operations from `i`, which leaves `g` HALF_OPEN,
      up to its next outcome: no two of them offer it. It holds exactly if no two of them
      are rankings that list it. */
  lemma SingleProbeIff(states: seq<Engine>, ops: seq<Op>, i: nat, j: nat, g: GatewayProvider)
    requires EngineRun(states, ops) && i <= j <= |ops| && i < |ops| && HalfOpen(states[i + 1], g)
    requires forall m :: i < m < j ==> !OutcomeOf(ops[m], g)
    ensures (forall a, b :: i <= a < b < j ==> !(Offers(states, ops, a, g) && Offers(states, ops, b, g))) <==>
            (forall a, b :: i <= a < b < j ==> !(Lists(ops, a, g) && Lists(ops, b, g)))
  {
    hide Offers, Lists, AfterOp, OutcomeOf;
    forall k | i <= k < j
      ensures Offers(states, ops, k, g) <==> Lists(ops, k, g)
    {
      HalfOpenIsOfferedIff(states, ops, i, k, g);
    }
  }

  /** The promise is broken: the cooldown of a gateway ends, and two rankings in a row offer
      it although another gateway is CLOSED. */
  lemma SecondProbe() returns (states: seq<Engine>, ops: seq<Op>)
    ensures EngineRun(states, ops) && |ops| == 5
    ensures HalfOpen(states[4], STRIPE)
    ensures ops[3].Ranking? && ops[4].Ranking?
    ensures Offers(states, ops, 3, STRIPE) && Offers(states, ops, 4, STRIPE)
    ensures UPI in ops[3].listing && UPI in ops[4].listing
    ensures UPI in states[5].table && states[5].table[UPI].circuitState == CLOSED
  {
    hide Ranked, Average;
    var fail := Failure(STRIPE, 0, 0, true);
    var rank := Ranking(1, [STRIPE, UPI], 30, (g: GatewayProvider) => true);
    var e0 := Engine(SEEDED, EMPTY);
    var e1 := AfterOp(e0, fail);
    var e2 := AfterOp(e1, fail);
    var e3 := AfterOp(e2, fail);
    var e4 := AfterOp(e3, rank);
    states, ops := [e0, e1, e2, e3, e4, AfterOp(e4, rank)], [fail, fail, fail, rank, rank];
    HalfOpenIsOfferedIff(states, ops, 3, 3, STRIPE);
    HalfOpenIsOfferedIff(states, ops, 3, 4, STRIPE);
  }
}
