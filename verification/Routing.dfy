/** Scoring and ranking of gateways. Scores are exact rationals. */
module Routing {
  import opened Lifecycle
  import opened GatewayHealth
  import opened Sorting

  function Max(a: real, b: real): real {
    if a < b then b else a
  }

  function SuccessRate(st: GatewayStats): real {
    var total := st.successCount + st.failureCount;
    if total == 0 then 1.0 else st.successCount as real / total as real
  }

  function CostScore(st: GatewayStats): real {
    Max(0.0, (300 - st.costBps) as real / 300.0)
  }

  function EffectiveLatency(st: GatewayStats): real {
    Max((if st.avgLatencyMs == 0 then 200 else st.avgLatencyMs) as real, 50.0)
  }

  function LatencyScore(st: GatewayStats): real {
    1000.0 / EffectiveLatency(st)
  }

  datatype Weights = Weights(success: real, cost: real, latency: real)

  function WeightsFor(amount: int): Weights {
    if amount > 5000 then Weights(0.7, 0.1, 0.2) else Weights(0.3, 0.5, 0.2)
  }

  function RawScore(st: GatewayStats, amount: int): real {
    var w := WeightsFor(amount);
    w.success * SuccessRate(st) + w.cost * CostScore(st) + w.latency * (LatencyScore(st) / 20.0)
  }

  /** The score of a candidate; -1 marks an OPEN gateway. */
  function Score(st: GatewayStats, amount: int): real {
    if st.circuitState == OPEN then -1.0
    else (if st.circuitState == HALF_OPEN then 0.3 else 1.0) * RawScore(st, amount)
  }

  datatype Candidate = Candidate(provider: GatewayProvider, score: real, stats: GatewayStats)

  function Candidates(table: map<GatewayProvider, GatewayStats>, listing: seq<GatewayProvider>, amount: int)
    : seq<Candidate>
    requires forall g <- listing :: g in table
  {
    seq(|listing|, i requires 0 <= i < |listing| =>
      Candidate(listing[i], Score(table[listing[i]], amount), table[listing[i]]))
  }

  function Eligible(cs: seq<Candidate>): seq<Candidate> {
    if cs == [] then [] else (if cs[0].score >= 0.0 then [cs[0]] else []) + Eligible(cs[1..])
  }

  function Providers(cs: seq<Candidate>): seq<GatewayProvider> {
    seq(|cs|, i requires 0 <= i < |cs| => cs[i].provider)
  }

  /** Eligible candidates by descending score; if there are none, all by ascending cost. */
  function RankedCandidates(cs: seq<Candidate>): seq<Candidate> {
    var filtered := Eligible(cs);
    if filtered == [] then SortBy(cs, (c: Candidate) => c.stats.costBps as real)
    else SortBy(filtered, (c: Candidate) => -c.score)
  }

  function Ranked(table: map<GatewayProvider, GatewayStats>, listing: seq<GatewayProvider>, amount: int)
    : seq<GatewayProvider>
    requires forall g <- listing :: g in table
  {
    Providers(RankedCandidates(Candidates(table, listing, amount)))
  }

  // ---------- Bounds on scores ----------

  lemma RateBounds(st: GatewayStats)
    ensures 0.0 <= SuccessRate(st) <= 1.0
  {
    var total := st.successCount + st.failureCount;
    if total > 0 {
      RatioBounds(st.successCount as real, total as real);
    }
  }

  lemma RatioBounds(a: real, b: real)
    requires 0.0 <= a <= b && b > 0.0
    ensures 0.0 <= a / b <= 1.0
  {
    assert a / b * b == a;
  }

  lemma LatencyBounds(st: GatewayStats)
    ensures 0.0 < LatencyScore(st) <= 20.0
  {
    var e := EffectiveLatency(st);
    assert e >= 50.0 && LatencyScore(st) * e == 1000.0;
  }

  lemma RawBounds(st: GatewayStats, amount: int)
    requires st.costBps >= 0
    ensures 0.0 < RawScore(st, amount) <= 1.0
    ensures RawScore(st, amount) > WeightsFor(amount).success * SuccessRate(st)
  {
    RateBounds(st);
    LatencyBounds(st);
    assert 0.0 <= CostScore(st) <= 1.0;
  }

  /** Eligible scores lie in (0, 1] when CLOSED and (0, 0.3] when HALF_OPEN, so the mark
      for OPEN gateways never meets a real score. */
  lemma ScoreBounds(st: GatewayStats, amount: int)
    requires st.costBps >= 0
    ensures st.circuitState == CLOSED ==> 0.0 < Score(st, amount) <= 1.0
    ensures st.circuitState == HALF_OPEN ==> 0.0 < Score(st, amount) <= 0.3
    ensures Score(st, amount) >= 0.0 <==> st.circuitState != OPEN
  {
    RawBounds(st, amount);
  }

  // ---------- The ranking ----------

  lemma {:induction false} EligibleKeepsOrder(cs: seq<Candidate>)
    ensures multiset(Eligible(cs)) <= multiset(cs)
    ensures forall c :: c in Eligible(cs) <==> c in cs && c.score >= 0.0
  {
    if cs == [] {
    } else {
      EligibleKeepsOrder(cs[1..]);
      assert cs == [cs[0]] + cs[1..];
    }
  }

  /** Distinct providers stay distinct under selection and permutation. */
  lemma DistinctProviders(cs: seq<Candidate>, ds: seq<Candidate>)
    requires Distinct(Providers(cs)) && multiset(ds) <= multiset(cs)
    ensures Distinct(Providers(ds))
  {
    forall i, j | 0 <= i < j < |ds|
      ensures Providers(ds)[i] != Providers(ds)[j]
    {
      var a, b := ds[i], ds[j];
      if a.provider == b.provider {
        assert a in multiset(ds) && b in multiset(ds);
        var p :| 0 <= p < |cs| && cs[p] == a;
        var q :| 0 <= q < |cs| && cs[q] == b;
        assert Providers(cs)[p] == Providers(cs)[q];
        TwiceMeansTwo(ds, i, j);
        OnceMeansOne(cs, p);
      }
    }
  }

  lemma TwiceMeansTwo<T>(xs: seq<T>, i: nat, j: nat)
    requires i < j < |xs| && xs[i] == xs[j]
    ensures multiset(xs)[xs[i]] >= 2
  {
    assert xs == xs[..i] + [xs[i]] + xs[i + 1..j] + [xs[j]] + xs[j + 1..];
  }

  lemma OnceMeansOne(cs: seq<Candidate>, p: nat)
    requires p < |cs| && Distinct(Providers(cs))
    ensures multiset(cs)[cs[p]] == 1
  {
    var c := cs[p];
    assert cs == cs[..p] + [c] + cs[p + 1..];
    forall q | 0 <= q < |cs| && q != p
      ensures cs[q] != c
    {
      assert Providers(cs)[q] != Providers(cs)[p];
    }
  }

  predicate NonNegativeCosts(table: map<GatewayProvider, GatewayStats>) {
    forall g :: g in table ==> table[g].costBps >= 0
  }

  lemma CandidateOf(table: map<GatewayProvider, GatewayStats>, listing: seq<GatewayProvider>, amount: int, c: Candidate)
    requires forall g <- listing :: g in table
    requires c in Candidates(table, listing, amount)
    ensures c.provider in listing && c == Candidate(c.provider, Score(table[c.provider], amount), table[c.provider])
  {
  }

  lemma RankedIsPermutation(cs: seq<Candidate>)
    ensures var r := RankedCandidates(cs);
            && multiset(r) <= multiset(cs)
            && (forall c :: c in r <==> c in cs && ((forall d <- cs :: d.score < 0.0) || c.score >= 0.0))
  {
    EligibleKeepsOrder(cs);
    var filtered := Eligible(cs);
    if filtered == [] {
      SortBySorts(cs, (c: Candidate) => c.stats.costBps as real);
      forall c ensures c in RankedCandidates(cs) <==> c in cs {
        assert c in multiset(RankedCandidates(cs)) <==> c in multiset(cs);
      }
      forall d | d in cs ensures d.score < 0.0 {
        assert d !in filtered;
      }
    } else {
      SortBySorts(filtered, (c: Candidate) => -c.score);
      forall c ensures c in RankedCandidates(cs) <==> c in filtered {
        assert c in multiset(RankedCandidates(cs)) <==> c in multiset(filtered);
      }
      assert filtered[0] in cs && filtered[0].score >= 0.0;
    }
  }

  predicate AllOpen(table: map<GatewayProvider, GatewayStats>, listing: seq<GatewayProvider>)
    requires forall g <- listing :: g in table
  {
    forall g <- listing :: table[g].circuitState == OPEN
  }

  /** In the list of candidates the score tells whether the gateway is OPEN. */
  lemma CandidatesTellOpen(table: map<GatewayProvider, GatewayStats>, listing: seq<GatewayProvider>, amount: int)
    requires (forall g <- listing :: g in table) && NonNegativeCosts(table)
    ensures forall g <- listing ::
              && Candidate(g, Score(table[g], amount), table[g]) in Candidates(table, listing, amount)
              && (Score(table[g], amount) >= 0.0 <==> table[g].circuitState != OPEN)
    ensures AllOpen(table, listing) <==> forall c <- Candidates(table, listing, amount) :: c.score < 0.0
  {
    hide Score;
    var cs := Candidates(table, listing, amount);
    forall g | g in listing
      ensures Candidate(g, Score(table[g], amount), table[g]) in cs
      ensures Score(table[g], amount) >= 0.0 <==> table[g].circuitState != OPEN
    {
      ScoreBounds(table[g], amount);
      var i :| 0 <= i < |listing| && listing[i] == g;
      assert cs[i] == Candidate(g, Score(table[g], amount), table[g]);
    }
    forall c | c in cs
      ensures c.provider in listing && c.score == Score(table[c.provider], amount)
    {
      CandidateOf(table, listing, amount, c);
    }
  }

  lemma RankedAt(table: map<GatewayProvider, GatewayStats>, listing: seq<GatewayProvider>, amount: int, i: nat)
    requires forall g <- listing :: g in table
    requires i < |Ranked(table, listing, amount)|
    ensures var ranked := RankedCandidates(Candidates(table, listing, amount));
            var g := Ranked(table, listing, amount)[i];
            && |ranked| == |Ranked(table, listing, amount)|
            && g in listing && ranked[i] == Candidate(g, Score(table[g], amount), table[g])
  {
    hide Score;
    var cs := Candidates(table, listing, amount);
    var ranked := RankedCandidates(cs);
    RankedIsPermutation(cs);
    assert ranked[i] in ranked;
    CandidateOf(table, listing, amount, ranked[i]);
  }

  lemma RankingIsDistinct(table: map<GatewayProvider, GatewayStats>, listing: seq<GatewayProvider>, amount: int)
    requires (forall g <- listing :: g in table) && Distinct(listing)
    ensures Distinct(Ranked(table, listing, amount))
    ensures forall g <- Ranked(table, listing, amount) :: g in listing
  {
    hide Score, RankedCandidates;
    var cs := Candidates(table, listing, amount);
    assert Providers(cs) == listing;
    RankedIsPermutation(cs);
    DistinctProviders(cs, RankedCandidates(cs));
    forall i | 0 <= i < |Ranked(table, listing, amount)|
      ensures Ranked(table, listing, amount)[i] in listing
    {
      RankedAt(table, listing, amount, i);
    }
  }

  /** The ranking is duplicate-free and holds exactly the gateways that are not OPEN, or
      exactly all configured ones when every one of them is OPEN. */
  lemma RankingMembers(table: map<GatewayProvider, GatewayStats>, listing: seq<GatewayProvider>, amount: int)
    requires (forall g <- listing :: g in table) && Distinct(listing) && NonNegativeCosts(table)
    ensures var r := Ranked(table, listing, amount);
            && Distinct(r)
            && (forall g :: g in r <==> g in listing && (AllOpen(table, listing) || table[g].circuitState != OPEN))
            && (r == [] <==> listing == [])
  {
    hide Score, RankedCandidates;
    var cs := Candidates(table, listing, amount);
    var ranked := RankedCandidates(cs);
    var r := Ranked(table, listing, amount);
    assert Providers(cs) == listing;
    RankedIsPermutation(cs);
    DistinctProviders(cs, ranked);
    CandidatesTellOpen(table, listing, amount);
    forall g
      ensures g in r <==> g in listing && (AllOpen(table, listing) || table[g].circuitState != OPEN)
    {
      if g in r {
        var i :| 0 <= i < |r| && r[i] == g;
        RankedAt(table, listing, amount, i);
        assert ranked[i] in ranked;
      }
      if g in listing && (AllOpen(table, listing) || table[g].circuitState != OPEN) {
        assert Candidate(g, Score(table[g], amount), table[g]) in ranked;
        var i :| 0 <= i < |ranked| && ranked[i] == Candidate(g, Score(table[g], amount), table[g]);
        assert r[i] == g;
      }
    }
    assert listing != [] ==> listing[0] in listing;
    assert listing != [] && AllOpen(table, listing) ==> listing[0] in r;
    assert r != [] ==> r[0] in r;
  }

  /** Descending score, or ascending cost when every configured gateway is OPEN; ties keep
      the order of the table listing (`SortBySorts`). */
  lemma RankingOrder(
      table: map<GatewayProvider, GatewayStats>, listing: seq<GatewayProvider>, amount: int, i: nat, j: nat)
    requires (forall g <- listing :: g in table) && NonNegativeCosts(table)
    requires i < j < |Ranked(table, listing, amount)|
    ensures var r := Ranked(table, listing, amount);
            && r[i] in table && r[j] in table
            && (if AllOpen(table, listing) then table[r[i]].costBps <= table[r[j]].costBps
                else Score(table[r[i]], amount) >= Score(table[r[j]], amount))
  {
    hide Score, SortBy;
    var cs := Candidates(table, listing, amount);
    RankedAt(table, listing, amount, i);
    RankedAt(table, listing, amount, j);
    CandidatesTellOpen(table, listing, amount);
    EligibleKeepsOrder(cs);
    if Eligible(cs) == [] {
      assert forall c <- cs :: c !in Eligible(cs);
      SortBySorts(cs, (c: Candidate) => c.stats.costBps as real);
    } else {
      assert Eligible(cs)[0] in Eligible(cs);
      SortBySorts(Eligible(cs), (c: Candidate) => -c.score);
    }
  }

  // ---------- Dominance ----------

  predicate AtLeastAsGood(a: GatewayStats, b: GatewayStats) {
    && SuccessRate(a) >= SuccessRate(b)
    && CostScore(a) >= CostScore(b)
    && EffectiveLatency(a) <= EffectiveLatency(b)
  }

  predicate StrictlyBetterSomewhere(a: GatewayStats, b: GatewayStats) {
    || SuccessRate(a) > SuccessRate(b)
    || CostScore(a) > CostScore(b)
    || EffectiveLatency(a) < EffectiveLatency(b)
  }

  lemma FasterScoresHigher(a: GatewayStats, b: GatewayStats)
    requires EffectiveLatency(a) <= EffectiveLatency(b)
    ensures LatencyScore(a) >= LatencyScore(b)
    ensures EffectiveLatency(a) < EffectiveLatency(b) ==> LatencyScore(a) > LatencyScore(b)
  {
    var x, y := EffectiveLatency(a), EffectiveLatency(b);
    assert LatencyScore(a) * x == 1000.0 && LatencyScore(b) * y == 1000.0;
    LatencyBounds(a);
    LatencyBounds(b);
    ProductsOrder(LatencyScore(a), x, LatencyScore(b), y);
  }

  lemma ProductsOrder(p: real, x: real, q: real, y: real)
    requires p > 0.0 && q > 0.0 && 0.0 < x <= y && p * x == q * y
    ensures p >= q && (x < y ==> p > q)
  {
    assert (p - q) * x == q * (y - x);
    assert q * (y - x) >= 0.0 && (x < y ==> q * (y - x) > 0.0);
  }

  /** In one circuit state, a gateway at least as good everywhere and better somewhere
      scores higher, whatever the amount. */
  lemma BetterScoresHigher(a: GatewayStats, b: GatewayStats, amount: int)
    requires a.circuitState == b.circuitState != OPEN
    requires AtLeastAsGood(a, b) && StrictlyBetterSomewhere(a, b)
    ensures Score(a, amount) > Score(b, amount)
  {
    FasterScoresHigher(a, b);
  }

  lemma ThreeInSeven(st: GatewayStats)
    requires 7 * st.successCount >= 3 * (st.successCount + st.failureCount)
    ensures 7.0 * SuccessRate(st) >= 3.0
  {
    var total := st.successCount + st.failureCount;
    if total > 0 {
      assert SuccessRate(st) * total as real == st.successCount as real;
      RateAtLeast(SuccessRate(st), total as real, st.successCount as real);
    }
  }

  lemma RateAtLeast(rate: real, total: real, successes: real)
    requires total > 0.0 && rate * total == successes && 7.0 * successes >= 3.0 * total
    ensures 7.0 * rate >= 3.0
  {
    assert (7.0 * rate - 3.0) * total >= 0.0;
  }

  /** Above 5000 a CLOSED gateway that succeeds at least three times in seven scores above
      every HALF_OPEN one. */
  lemma ClosedBeatsHalfOpen(a: GatewayStats, b: GatewayStats, amount: int)
    requires amount > 5000 && a.costBps >= 0 && b.costBps >= 0
    requires a.circuitState == CLOSED && b.circuitState == HALF_OPEN
    requires 7 * a.successCount >= 3 * (a.successCount + a.failureCount)
    ensures Score(a, amount) > Score(b, amount)
  {
    hide SuccessRate, RawScore;
    RawBounds(a, amount);
    ScoreBounds(b, amount);
    ThreeInSeven(a);
    assert WeightsFor(amount).success == 0.7;
    assert 0.7 * SuccessRate(a) >= 0.3;
  }

  /** A higher score means an earlier place. */
  lemma HigherScoreComesFirst(
      table: map<GatewayProvider, GatewayStats>, listing: seq<GatewayProvider>, amount: int, i: nat, j: nat)
    requires (forall g <- listing :: g in table) && Distinct(listing) && NonNegativeCosts(table)
    requires var r := Ranked(table, listing, amount);
             && i < |r| && j < |r|
             && r[i] in table && r[j] in table
             && table[r[i]].circuitState != OPEN
             && Score(table[r[i]], amount) > Score(table[r[j]], amount)
    ensures i < j
  {
    var r := Ranked(table, listing, amount);
    RankingMembers(table, listing, amount);
    assert r[i] in r;
    if j < i {
      RankingOrder(table, listing, amount, j, i);
    }
  }

  /** Dominance at the level of the ranking itself. */
  lemma BetterComesFirst(
      table: map<GatewayProvider, GatewayStats>, listing: seq<GatewayProvider>, amount: int, i: nat, j: nat)
    requires (forall g <- listing :: g in table) && Distinct(listing) && NonNegativeCosts(table)
    requires i < |Ranked(table, listing, amount)| && j < |Ranked(table, listing, amount)|
    requires var r := Ranked(table, listing, amount);
             && r[i] in table && r[j] in table
             && var a, b := table[r[i]], table[r[j]];
                || (a.circuitState == b.circuitState != OPEN && AtLeastAsGood(a, b) && StrictlyBetterSomewhere(a, b))
                || (amount > 5000 && a.circuitState == CLOSED && b.circuitState == HALF_OPEN &&
                    7 * a.successCount >= 3 * (a.successCount + a.failureCount))
    ensures i < j
  {
    var r := Ranked(table, listing, amount);
    var a, b := table[r[i]], table[r[j]];
    if a.circuitState == b.circuitState {
      BetterScoresHigher(a, b, amount);
    } else {
      ClosedBeatsHalfOpen(a, b, amount);
    }
    HigherScoreComesFirst(table, listing, amount, i, j);
  }

  // ---------- The exact trade-off ----------

  /** What speaks for a CLOSED gateway, in its counters, basis points and milliseconds. Up to
      5000 cost weighs most, above it the success rate. */
  function Worth(st: GatewayStats, amount: int): real {
    var total := st.successCount + st.failureCount;
    var rate := if total == 0 then 1.0 else st.successCount as real / total as real;
    var saved := if st.costBps >= 300 then 0.0 else 1.0 - st.costBps as real / 300.0;
    var speed :=
      if st.avgLatencyMs == 0 then 0.5
      else if st.avgLatencyMs <= 50 then 2.0
      else 100.0 / st.avgLatencyMs as real;
    if amount <= 5000 then 3.0 * rate + 5.0 * saved + speed else 7.0 * rate + saved + speed
  }

  /** The same with the factor 3/10 of HALF_OPEN. */
  function Standing(st: GatewayStats, amount: int): real {
    if st.circuitState == HALF_OPEN then 3.0 * Worth(st, amount) else 10.0 * Worth(st, amount)
  }

  lemma SpeedOf(st: GatewayStats)
    ensures LatencyScore(st) / 2.0 * 0.2 ==
            if st.avgLatencyMs == 0 then 0.5
            else if st.avgLatencyMs <= 50 then 2.0
            else 100.0 / st.avgLatencyMs as real
  {
    var e := EffectiveLatency(st);
    assert LatencyScore(st) * e == 1000.0;
    if st.avgLatencyMs > 50 {
      var q := 100.0 / st.avgLatencyMs as real;
      assert q * e == 100.0;
      assert (LatencyScore(st) - 10.0 * q) * e == 0.0;
    }
  }

  lemma StandingIsScore(st: GatewayStats, amount: int)
    requires st.circuitState != OPEN
    ensures 100.0 * Score(st, amount) == Standing(st, amount)
  {
    SpeedOf(st);
    hide SuccessRate, LatencyScore;
    assert SuccessRate(st) ==
           var total := st.successCount + st.failureCount;
           if total == 0 then 1.0 else st.successCount as real / total as real by {
      RateInCounters(st);
    }
  }

  lemma RateInCounters(st: GatewayStats)
    ensures SuccessRate(st) ==
            var total := st.successCount + st.failureCount;
            if total == 0 then 1.0 else st.successCount as real / total as real
  {
  }

  /** Ties aside, one of two gateways that are not OPEN comes first exactly if it stands
      higher. */
  lemma HigherStandingComesFirst(
      table: map<GatewayProvider, GatewayStats>, listing: seq<GatewayProvider>, amount: int, i: nat, j: nat)
    requires (forall g <- listing :: g in table) && Distinct(listing) && NonNegativeCosts(table)
    requires var r := Ranked(table, listing, amount);
             && i < |r| && j < |r|
             && r[i] in table && r[j] in table
             && table[r[i]].circuitState != OPEN && table[r[j]].circuitState != OPEN
             && Standing(table[r[i]], amount) != Standing(table[r[j]], amount)
    ensures var r := Ranked(table, listing, amount);
            i < j <==> Standing(table[r[i]], amount) > Standing(table[r[j]], amount)
  {
    hide Ranked, Score, Standing, NonNegativeCosts;
    var r := Ranked(table, listing, amount);
    StandingIsScore(table[r[i]], amount);
    StandingIsScore(table[r[j]], amount);
    if Score(table[r[i]], amount) > Score(table[r[j]], amount) {
      HigherScoreComesFirst(table, listing, amount, i, j);
    } else {
      HigherScoreComesFirst(table, listing, amount, j, i);
    }
  }

  /** Two CLOSED gateways of one latency, both with outcomes and below 300 basis points. Up
      to 5000, three points of success rate are worth five of cost; above, seven are worth
      one. Ties aside, that decides. */
  lemma RateAgainstCost(
      table: map<GatewayProvider, GatewayStats>, listing: seq<GatewayProvider>, amount: int, i: nat, j: nat)
    requires (forall g <- listing :: g in table) && Distinct(listing) && NonNegativeCosts(table)
    requires var r := Ranked(table, listing, amount);
             && i < |r| && j < |r|
             && r[i] in table && r[j] in table
             && var a, b := table[r[i]], table[r[j]];
                && a.circuitState == b.circuitState == CLOSED && a.avgLatencyMs == b.avgLatencyMs
                && a.successCount + a.failureCount > 0 && b.successCount + b.failureCount > 0
                && a.costBps <= 300 && b.costBps <= 300
    ensures var r := Ranked(table, listing, amount);
            var a, b := table[r[i]], table[r[j]];
            var rate := a.successCount as real / (a.successCount + a.failureCount) as real -
                        b.successCount as real / (b.successCount + b.failureCount) as real;
            var cost := (a.costBps - b.costBps) as real / 300.0;
            if amount <= 5000 then 3.0 * rate != 5.0 * cost ==> (i < j <==> 3.0 * rate > 5.0 * cost)
            else 7.0 * rate != cost ==> (i < j <==> 7.0 * rate > cost)
  {
    hide Ranked, NonNegativeCosts;
    var r := Ranked(table, listing, amount);
    var a, b := table[r[i]], table[r[j]];
    if Standing(a, amount) != Standing(b, amount) {
      HigherStandingComesFirst(table, listing, amount, i, j);
    }
  }

  lemma {:induction false} OrderedAlike(
      r: seq<GatewayProvider>, plan: seq<GatewayProvider>, key: GatewayProvider -> real)
    requires Distinct(r) && Distinct(plan) && forall g :: g in r <==> g in plan
    requires forall i, j :: 0 <= i < j < |r| ==> key(r[i]) >= key(r[j])
    requires forall i, j :: 0 <= i < j < |plan| ==> key(plan[i]) > key(plan[j])
    ensures r == plan
  {
    if plan == [] {
      assert forall k :: 0 <= k < |r| ==> r[k] in r;
    } else {
      assert plan[0] in r;
      var m :| 0 <= m < |r| && r[m] == plan[0];
      assert r[0] in plan;
      var n :| 0 <= n < |plan| && plan[n] == r[0];
      assert m == 0;
      forall g
        ensures g in r[1..] <==> g in plan[1..]
      {
        assert g in r[1..] <==> g in r && g != r[0];
        assert g in plan[1..] <==> g in plan && g != plan[0];
      }
      OrderedAlike(r[1..], plan[1..], key);
    }
  }

  /** The ranking in full, when no two standings are equal and no gateway is OPEN. */
  lemma RankingIsByStanding(table: map<GatewayProvider, GatewayStats>, listing: seq<GatewayProvider>, amount: int,
                            plan: seq<GatewayProvider>)
    requires (forall g <- listing :: g in table) && Distinct(listing) && NonNegativeCosts(table)
    requires Distinct(plan) && (forall g :: g in plan <==> g in listing)
    requires forall g <- plan :: table[g].circuitState != OPEN
    requires forall i, j :: 0 <= i < j < |plan| ==>
               Standing(table[plan[i]], amount) > Standing(table[plan[j]], amount)
    ensures Ranked(table, listing, amount) == plan
  {
    hide Ranked, Score, Standing, NonNegativeCosts;
    var r := Ranked(table, listing, amount);
    var key := (g: GatewayProvider) => if g in table then Standing(table[g], amount) else 0.0;
    RankingMembers(table, listing, amount);
    forall i, j | 0 <= i < j < |r|
      ensures key(r[i]) >= key(r[j])
    {
      assert r[i] in r && r[j] in r;
      if key(r[i]) != key(r[j]) {
        HigherStandingComesFirst(table, listing, amount, i, j);
      }
    }
    OrderedAlike(r, plan, key);
  }

  /** Cost before reliability up to 5000, reliability before cost above: the cheap gateway
      with two successes in five against the dear one that never failed. */
  lemma SmallAmountsGoByCost(amount: int)
    ensures var cheap, sure := GatewayStats(2, 3, 0, 50, CLOSED, 0), GatewayStats(5, 0, 0, 290, CLOSED, 0);
            var table := map[UPI := cheap, STRIPE := sure];
            Ranked(table, [STRIPE, UPI], amount) == if amount <= 5000 then [UPI, STRIPE] else [STRIPE, UPI]
  {
    hide Ranked;
    var cheap, sure := GatewayStats(2, 3, 0, 50, CLOSED, 0), GatewayStats(5, 0, 0, 290, CLOSED, 0);
    var table := map[UPI := cheap, STRIPE := sure];
    RankingIsByStanding(table, [STRIPE, UPI], amount, if amount <= 5000 then [UPI, STRIPE] else [STRIPE, UPI]);
  }
}
