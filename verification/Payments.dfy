/** `TransactionsService.create` run by itself, against a functional account of failover.
    Line numbers below refer to src/transactions/transactions.service.ts. */
module Payments {
  import opened Lifecycle
  import opened Writers
  import opened StateMachine
  import opened GatewayHealth
  import opened Redis
  import RE = RoutingEngine
  import Routing

  // ---------- What failover does ----------

  /** The attempt that ends the loop: the first that is charged, else the last. */
  predicate Decides(answers: nat -> Outcome, n: nat, d: nat) {
    && d < n
    && (forall i: nat :: i < d ==> answers(i).Declined?)
    && (answers(d).Charged? || d == n - 1)
  }

  function AttemptRows(id: TxnId, start: TransactionState, g: GatewayProvider): seq<AuditLog> {
    [AuditLog(id, Some(start), ROUTED, Some(g), Some(GatewaySelected(g))),
     AuditLog(id, Some(ROUTED), PROCESSING, Some(g), Some(InitiatingCall(g)))]
  }

  function StartOf(k: nat): TransactionState {
    if k == 0 then INITIATED else RETRY_PENDING
  }

  /** The state one pass of the loop leaves the row in. */
  function PassState(answer: Outcome, last: bool): TransactionState {
    if answer.Charged? then SUCCESS else if last then FAILED else RETRY_PENDING
  }

  function PassRow(before: Transaction, g: GatewayProvider, answer: Outcome, last: bool): Transaction {
    before.(
      currentState := PassState(answer, last),
      selectedGateway := Some(g),
      gatewayTxnId := if answer.Charged? then Some(answer.gatewayTxnId) else before.gatewayTxnId,
      attemptCount := before.attemptCount + 1)
  }

  /** The audit rows of one pass. */
  function PassRows(id: TxnId, start: TransactionState, g: GatewayProvider, answer: Outcome, last: bool)
    : seq<AuditLog>
  {
    AttemptRows(id, start, g) +
    [AuditLog(id, Some(PROCESSING), PassState(answer, last), Some(g),
              Some(match answer
                   case Charged(_) => ChargeSucceeded
                   case Declined(e) => if last then AllAttemptsFailed(e) else AttemptFailed(g, e)))]
  }

  function PassEngine(e: RE.Engine, g: GatewayProvider, answer: Outcome, latency: int, now: Time, up: bool): RE.Engine {
    if answer.Charged? then RE.RecordedSuccess(e, g, latency, up) else RE.RecordedFailure(e, g, latency, now, up)
  }

  /** The audit rows of the first `k` attempts, each declined and given up for the next. */
  function DeclinedRows(id: TxnId, plan: seq<GatewayProvider>, answers: nat -> Outcome, k: nat): seq<AuditLog>
    requires k <= |plan| && forall i: nat :: i < k ==> answers(i).Declined?
  {
    if k == 0 then []
    else
      DeclinedRows(id, plan, answers, k - 1) + PassRows(id, StartOf(k - 1), plan[k - 1], answers(k - 1), false)
  }

  /** The audit rows of the whole loop when attempt `d` decides. */
  function FailoverRows(id: TxnId, plan: seq<GatewayProvider>, answers: nat -> Outcome, d: nat): seq<AuditLog>
    requires Decides(answers, |plan|, d)
  {
    DeclinedRows(id, plan, answers, d) + PassRows(id, StartOf(d), plan[d], answers(d), d == |plan| - 1)
  }

  /** The row the loop leaves when attempt `d` decides. */
  function FailoverRow(created: Transaction, plan: seq<GatewayProvider>, answers: nat -> Outcome, d: nat): Transaction
    requires Decides(answers, |plan|, d)
  {
    created.(
      currentState := if answers(d).Charged? then SUCCESS else FAILED,
      selectedGateway := Some(plan[d]),
      gatewayTxnId := if answers(d).Charged? then Some(answers(d).gatewayTxnId) else None,
      attemptCount := d + 1)
  }

  /** The row at the head of the loop after `k` declined attempts. */
  function RowAtHead(created: Transaction, plan: seq<GatewayProvider>, k: nat): Transaction
    requires k <= |plan|
  {
    if k == 0 then created
    else created.(currentState := RETRY_PENDING, selectedGateway := Some(plan[k - 1]), attemptCount := k)
  }

  /** The routing engine after `k` declined attempts; pass `i` calls Redis at moment i + 2. */
  function EngineAtHead(e: RE.Engine, plan: seq<GatewayProvider>, answers: nat -> Outcome,
                        latencies: nat -> int, now: nat -> Time, up: nat -> bool, k: nat): RE.Engine
    requires k <= |plan|
  {
    if k == 0 then e
    else
      PassEngine(EngineAtHead(e, plan, answers, latencies, now, up, k - 1),
                 plan[k - 1], answers(k - 1), latencies(k - 1), now(k + 1), up(k + 1))
  }

  function EngineAfter(e: RE.Engine, plan: seq<GatewayProvider>, answers: nat -> Outcome, latencies: nat -> int,
                       now: nat -> Time, up: nat -> bool, d: nat): RE.Engine
    requires d < |plan|
  {
    PassEngine(EngineAtHead(e, plan, answers, latencies, now, up, d),
               plan[d], answers(d), latencies(d), now(d + 2), up(d + 2))
  }

  /** The head of the loop before the first attempt. */
  lemma HeadStart(saved: Transaction, plan: seq<GatewayProvider>, answers: nat -> Outcome, e: RE.Engine,
                  latencies: nat -> int, now: nat -> Time, up: nat -> bool)
    ensures RowAtHead(saved, plan, 0) == saved
    ensures DeclinedRows(saved.id, plan, answers, 0) == []
    ensures EngineAtHead(e, plan, answers, latencies, now, up, 0) == e
  {
  }

  lemma EngineStep(e: RE.Engine, plan: seq<GatewayProvider>, answers: nat -> Outcome,
                   latencies: nat -> int, now: nat -> Time, up: nat -> bool, k: nat)
    requires k < |plan|
    ensures var head := EngineAtHead(e, plan, answers, latencies, now, up, k);
            var after := PassEngine(head, plan[k], answers(k), latencies(k), now(k + 2), up(k + 2));
            && EngineAtHead(e, plan, answers, latencies, now, up, k + 1) == after
            && EngineAfter(e, plan, answers, latencies, now, up, k) == after
  {
  }

  // ---------- What failover leaves in the statistics ----------

  /** One gateway's row after one attempt: a success or a failure more, the streak of failures
      ended or longer, the circuit CLOSED, tripped at three or as it was, the latency taken
      into the average. */
  predicate Counted(b: GatewayStats, a: GatewayStats, answer: Outcome, latency: int) {
    && a.costBps == b.costBps
    && (if answer.Charged? then
          && a.successCount == b.successCount + 1 && a.failureCount == b.failureCount
          && a.consecutiveFailures == 0 && a.circuitState == CLOSED
        else
          && a.successCount == b.successCount && a.failureCount == b.failureCount + 1
          && a.consecutiveFailures == b.consecutiveFailures + 1
          && a.circuitState == (if b.consecutiveFailures >= 2 then OPEN else b.circuitState))
    && a.avgLatencyMs ==
       (if answer.Declined? && latency <= 0 then b.avgLatencyMs
        else if b.avgLatencyMs == 0 then latency
        else (9 * b.avgLatencyMs + latency + 5) / 10)
  }

  /** The table after the first `k` attempts of a plan: each gateway tried has counted its own
      answer, and no other row has changed. */
  predicate Tallied(before: map<GatewayProvider, GatewayStats>, after: map<GatewayProvider, GatewayStats>,
                    plan: seq<GatewayProvider>, answers: nat -> Outcome, latencies: nat -> int, k: nat)
    requires k <= |plan|
  {
    && after.Keys == before.Keys
    && (forall g :: g in before && g !in plan[..k] ==> after[g] == before[g])
    && (forall i: nat :: i < k && plan[i] in before ==>
          Counted(before[plan[i]], after[plan[i]], answers(i), latencies(i)))
  }

  lemma PassCounts(e: RE.Engine, g: GatewayProvider, answer: Outcome, latency: int, now: Time, up: bool)
    ensures var after := PassEngine(e, g, answer, latency, now, up).table;
            && after.Keys == e.table.Keys
            && (forall x :: x in e.table && x != g ==> after[x] == e.table[x])
            && (g in e.table ==> Counted(e.table[g], after[g], answer, latency))
  {
    if g in e.table {
      AverageInIntegers(e.table[g].avgLatencyMs, latency);
    }
  }

  lemma {:induction false} HeadIsTallied(e: RE.Engine, plan: seq<GatewayProvider>, answers: nat -> Outcome,
                                         latencies: nat -> int, now: nat -> Time, up: nat -> bool, k: nat)
    requires k <= |plan| && Distinct(plan)
    ensures Tallied(e.table, EngineAtHead(e, plan, answers, latencies, now, up, k).table, plan, answers, latencies, k)
  {
    hide PassEngine, Counted;
    if k == 0 {
    } else {
      HeadIsTallied(e, plan, answers, latencies, now, up, k - 1);
      PassCounts(EngineAtHead(e, plan, answers, latencies, now, up, k - 1),
                 plan[k - 1], answers(k - 1), latencies(k - 1), now(k + 1), up(k + 1));
      assert plan[..k] == plan[..k - 1] + [plan[k - 1]];
      assert plan[k - 1] !in plan[..k - 1];
    }
  }

  lemma FailoverIsTallied(e: RE.Engine, plan: seq<GatewayProvider>, answers: nat -> Outcome,
                          latencies: nat -> int, now: nat -> Time, up: nat -> bool, d: nat)
    requires d < |plan| && Distinct(plan)
    ensures var after := EngineAfter(e, plan, answers, latencies, now, up, d);
            Tallied(e.table, after.table, plan, answers, latencies, d + 1)
  {
    hide EngineAtHead, EngineAfter, PassEngine, Tallied;
    EngineStep(e, plan, answers, latencies, now, up, d);
    HeadIsTallied(e, plan, answers, latencies, now, up, d + 1);
  }

  // ---------- One pass and the next ----------

  /** One pass leads from one head of the loop to the next, or to the end. */
  lemma HeadStep(saved: Transaction, plan: seq<GatewayProvider>, answers: nat -> Outcome, k: nat)
    requires saved.currentState == INITIATED && saved.attemptCount == 0 && saved.gatewayTxnId.None?
    requires k < |plan| && forall i: nat :: i < k ==> answers(i).Declined?
    ensures var head, last := RowAtHead(saved, plan, k), k == |plan| - 1;
            var row := PassRow(head, plan[k], answers(k), last);
            var rows := DeclinedRows(saved.id, plan, answers, k) +
                        PassRows(saved.id, head.currentState, plan[k], answers(k), last);
            && head.id == saved.id
            && head.currentState == StartOf(k)
            && (answers(k).Declined? && !last ==>
                  row == RowAtHead(saved, plan, k + 1) && rows == DeclinedRows(saved.id, plan, answers, k + 1))
            && (answers(k).Charged? || last ==>
                  && Decides(answers, |plan|, k)
                  && row == FailoverRow(saved, plan, answers, k) && rows == FailoverRows(saved.id, plan, answers, k))
  {
  }

  datatype CreateError =
    | Conflict
    | NoGateways
    | Refused(error: TransitionError)
    | PaymentFailed(lastError: string)

  /** A granted key without a row: failover over the plan, or nothing without a gateway. */
  predicate Fulfilled(dto: CreateTransactionDto, id: TxnId, plan: seq<GatewayProvider>, answers: nat -> Outcome, d: nat,
                      before: Tables, after: Tables, r: Result<Transaction, CreateError>)
  {
    if plan == [] then r == Err(NoGateways) && after == before
    else
      var created := NewTransaction(id, dto, plan[0], plan[1..]);
      && Decides(answers, |plan|, d)
      && r == Ok(FailoverRow(created, plan, answers, d))
      && after.transactions == before.transactions[id := r.value]
      && after.auditLog == before.auditLog + [CreatedLog(id, plan[0])] + FailoverRows(id, plan, answers, d)
  }

  /** A key with a row: that row is the answer and nothing is written. */
  predicate Replayed(key: string, before: Tables, after: Tables, r: Result<Transaction, CreateError>) {
    && r.Ok? && r.value.idempotencyKey == key
    && (exists t :: t in before.transactions && before.transactions[t] == r.value)
    && after == before
  }

  /** What `create` answers and writes, given whether the lock was granted, what the GET
      saw if it was not, and how the gateways are ranked and answer if it was. */
  predicate Responds(dto: CreateTransactionDto, id: TxnId, granted: bool, seen: Option<RedisValue>,
                     plan: seq<GatewayProvider>, answers: nat -> Outcome, d: nat,
                     before: Tables, after: Tables, r: Result<Transaction, CreateError>)
  {
    var key := dto.idempotencyKey;
    if !granted && seen == Some(ProcessingMark) then r == Err(Conflict) && after == before
    else if !granted && seen.Some? && seen.value.CompletedWith? then r == Ok(seen.value.transaction) && after == before
    else if HasKey(before.transactions, key) then Replayed(key, before, after, r)
    else if !granted then r == Err(Conflict) && after == before
    else Fulfilled(dto, id, plan, answers, d, before, after, r)
  }

  /** The three audit rows of one attempt: selected, called, and given up or decided. */
  predicate AttemptTold(rows: seq<AuditLog>, id: TxnId, g: GatewayProvider, answer: Outcome, first: bool, last: bool)
    requires |rows| == 3
  {
    && rows[0] == AuditLog(id, Some(if first then INITIATED else RETRY_PENDING), ROUTED, Some(g),
                           Some(GatewaySelected(g)))
    && rows[1] == AuditLog(id, Some(ROUTED), PROCESSING, Some(g), Some(InitiatingCall(g)))
    && match answer
       case Charged(_) => rows[2] == AuditLog(id, Some(PROCESSING), SUCCESS, Some(g), Some(ChargeSucceeded))
       case Declined(e) =>
         if last then rows[2] == AuditLog(id, Some(PROCESSING), FAILED, Some(g), Some(AllAttemptsFailed(e)))
         else rows[2] == AuditLog(id, Some(PROCESSING), RETRY_PENDING, Some(g), Some(AttemptFailed(g, e)))
  }

  lemma PassIsTold(id: TxnId, k: nat, g: GatewayProvider, answer: Outcome, last: bool)
    ensures |PassRows(id, StartOf(k), g, answer, last)| == 3
    ensures AttemptTold(PassRows(id, StartOf(k), g, answer, last), id, g, answer, k == 0, last)
  {
  }

  lemma {:induction false} DeclinedAreTold(
      id: TxnId, plan: seq<GatewayProvider>, answers: nat -> Outcome, k: nat, i: nat)
    requires i < k <= |plan| && forall m: nat :: m < k ==> answers(m).Declined?
    ensures var rows := DeclinedRows(id, plan, answers, k);
            |rows| == 3 * k && AttemptTold(rows[3 * i..3 * i + 3], id, plan[i], answers(i), i == 0, false)
  {
    hide PassRows, AttemptTold;
    PassIsTold(id, k - 1, plan[k - 1], answers(k - 1), false);
    var rows := DeclinedRows(id, plan, answers, k);
    var before := DeclinedRows(id, plan, answers, k - 1);
    if i == k - 1 {
      DeclinedLength(id, plan, answers, k - 1);
      assert rows[3 * i..3 * i + 3] == PassRows(id, StartOf(k - 1), plan[k - 1], answers(k - 1), false);
    } else {
      DeclinedAreTold(id, plan, answers, k - 1, i);
      assert rows[3 * i..3 * i + 3] == before[3 * i..3 * i + 3];
    }
  }

  lemma {:induction false} DeclinedLength(id: TxnId, plan: seq<GatewayProvider>, answers: nat -> Outcome, k: nat)
    requires k <= |plan| && forall m: nat :: m < k ==> answers(m).Declined?
    ensures |DeclinedRows(id, plan, answers, k)| == 3 * k
  {
    if k == 0 {
    } else {
      DeclinedLength(id, plan, answers, k - 1);
    }
  }

  /** The log of a failover, attempt by attempt: the gateway, the states and the reasons of
      its three audit rows. */
  lemma FailoverIsTold(id: TxnId, plan: seq<GatewayProvider>, answers: nat -> Outcome, d: nat, i: nat)
    requires Decides(answers, |plan|, d) && i <= d
    ensures var rows := FailoverRows(id, plan, answers, d);
            && |rows| == 3 * (d + 1)
            && AttemptTold(rows[3 * i..3 * i + 3], id, plan[i], answers(i), i == 0, i == |plan| - 1)
  {
    hide PassRows, AttemptTold, DeclinedRows;
    DeclinedLength(id, plan, answers, d);
    PassIsTold(id, d, plan[d], answers(d), d == |plan| - 1);
    var rows := FailoverRows(id, plan, answers, d);
    if i == d {
      assert rows[3 * i..3 * i + 3] == PassRows(id, StartOf(d), plan[d], answers(d), d == |plan| - 1);
    } else {
      DeclinedAreTold(id, plan, answers, d, i);
      assert rows[3 * i..3 * i + 3] == DeclinedRows(id, plan, answers, d)[3 * i..3 * i + 3];
    }
  }

  /** Which errors `create` answers with, and when; then it has written nothing. */
  lemma ErrorsByCase(dto: CreateTransactionDto, id: TxnId, granted: bool, seen: Option<RedisValue>,
                     plan: seq<GatewayProvider>, answers: nat -> Outcome, d: nat,
                     before: Tables, after: Tables, r: Result<Transaction, CreateError>)
    requires Responds(dto, id, granted, seen, plan, answers, d, before, after, r)
    ensures var stored := HasKey(before.transactions, dto.idempotencyKey);
            && (r == Err(Conflict) <==>
                  !granted && (seen == Some(ProcessingMark) || (!stored && !(seen.Some? && seen.value.CompletedWith?))))
            && (r == Err(NoGateways) <==> granted && !stored && plan == [])
            && (r.Err? ==> r.error in {Conflict, NoGateways} && after == before)
  {
    hide Decides, FailoverRow, FailoverRows;
  }

  /** What a new payment carries: the request, the ranking, and the deciding answer. Its first
      audit row says it was created. */
  lemma NewPaymentCarriesTheRequest(dto: CreateTransactionDto, id: TxnId, seen: Option<RedisValue>,
                                    plan: seq<GatewayProvider>, answers: nat -> Outcome, d: nat,
                                    before: Tables, after: Tables, r: Result<Transaction, CreateError>)
    requires Responds(dto, id, true, seen, plan, answers, d, before, after, r)
    requires !HasKey(before.transactions, dto.idempotencyKey) && plan != []
    ensures r.Ok? && d < |plan|
    ensures var row := r.value;
            && row.id == id && row.idempotencyKey == dto.idempotencyKey && row.merchantId == dto.merchantId
            && row.amount == dto.amount && row.currency == dto.currency
            && row.fallbackGateways == plan[1..] && row.selectedGateway == Some(plan[d]) && row.attemptCount == d + 1
            && (match answers(d)
                case Charged(x) => row.currentState == SUCCESS && row.gatewayTxnId == Some(x)
                case Declined(_) => row.currentState == FAILED && row.gatewayTxnId == None && d == |plan| - 1)
            && row.finalReconciledAt == None
    ensures |before.auditLog| < |after.auditLog| && before.auditLog <= after.auditLog
    ensures after.auditLog[|before.auditLog|] ==
            AuditLog(id, None, INITIATED, Some(plan[0]), Some(TransactionCreated))
  {
    hide FailoverRows;
  }

  const LOCK_TTL: Time := 10
  const CACHE_TTL: Time := 86400

  /** What every GET in the mode Redis has been left in finds, for a day from `from` on. */
  ghost predicate Cached(st: RedisState, key: string, t: Transaction, from: Time) {
    forall moment: Time :: from <= moment < from + CACHE_TTL ==>
      Lookup(st, Idempotency(key), moment) == Some(CompletedWith(t))
  }

  /** No GET in that mode finds the key. */
  ghost predicate Released(st: RedisState, key: string) {
    forall moment: Time :: Lookup(st, Idempotency(key), moment) == None
  }

  /** The lock lasts ten seconds: while nobody deletes or overwrites it and Redis does not
      fail, the same SET is refused to others before that and granted from then on. */
  lemma LockLastsTenSeconds(st: RedisState, key: string, now: Time, calls: seq<Call>, later: Time)
    requires !st.isMockMode
    requires SetResult(st, Idempotency(key), ProcessingMark, Some(NX), Some(LOCK_TTL), now, true).ok
    requires forall c <- calls :: Respects(c, Idempotency(key), now + 10)
    ensures var locked := SetResult(st, Idempotency(key), ProcessingMark, Some(NX), Some(LOCK_TTL), now, true).st;
            var held := AfterAll(locked, calls);
            SetResult(held, Idempotency(key), ProcessingMark, Some(NX), Some(LOCK_TTL), later, true).ok <==>
              later >= now + 10
  {
    LockExcludesUntilItEnds(st, Idempotency(key), ProcessingMark, LOCK_TTL, now, calls, later);
  }

  /** A result is cached for 86400 seconds: on the server that long and no longer, in memory
      for good. */
  lemma ResultsLastADay(st: RedisState, key: string, t: Transaction, now: Time, up: bool, later: Time)
    ensures var after := SetResult(st, Idempotency(key), CompletedWith(t), None, Some(CACHE_TTL), now, up).st;
            Lookup(after, Idempotency(key), later) ==
            if st.isMockMode || !up || later < now + 86400 then Some(CompletedWith(t)) else None
  {
    SetMeans(st, Idempotency(key), CompletedWith(t), None, Some(CACHE_TTL), now, up);
  }

  lemma SetCaches(st: RedisState, key: string, t: Transaction, now: Time, up: bool)
    ensures Cached(SetResult(st, Idempotency(key), CompletedWith(t), None, Some(CACHE_TTL), now, up).st, key, t, now)
  {
  }

  class TransactionsService {
    const store: PaymentStore
    const redisService: RedisService
    const routingEngine: RE.RoutingEngineService

    constructor (store: PaymentStore, redisService: RedisService, routingEngine: RE.RoutingEngineService)
      ensures this.store == store && this.redisService == redisService && this.routingEngine == routingEngine
    {
      this.store, this.redisService, this.routingEngine := store, redisService, routingEngine;
    }

    predicate Wired()
      reads this, routingEngine
    {
      routingEngine.redisService == redisService
    }

    /** `transition` as `create` calls it: a refusal is thrown on. */
    method Step(id: TxnId, w: Write, now: Time) returns (r: Result<Transaction, CreateError>)
      modifies store
      ensures id in old(store.transactions) && Allowed(old(store.transactions[id].currentState), w.toState) ==>
                var written := Transit(old(store.transactions[id]), w.toState, w.metadata, now).value;
                && r == Ok(written.row)
                && store.transactions == old(store.transactions)[id := written.row]
                && store.auditLog == old(store.auditLog) + [written.log]
      ensures r.Err? ==> store.State() == old(store.State())
    {
      var t := store.Transition(id, w.toState, w.metadata, now);
      match t
      case Ok(row) => return Ok(row);
      case Err(e) => return Err(Refused(e));
    }

    /** Lines 148-159: the two transitions before a charge call. */
    method Begin(id: TxnId, gateway: GatewayProvider, now: Time) returns (r: Result<Transaction, CreateError>)
      requires id in store.transactions && store.transactions[id].id == id
      requires store.transactions[id].currentState == INITIATED || store.transactions[id].currentState == RETRY_PENDING
      modifies store
      ensures var before := old(store.transactions[id]);
              var row := before.(currentState := PROCESSING, selectedGateway := Some(gateway),
                                 attemptCount := before.attemptCount + 1);
              && r == Ok(row)
              && store.transactions == old(store.transactions)[id := row]
              && store.auditLog == old(store.auditLog) + AttemptRows(id, before.currentState, gateway)
    {
      var _ :- assert Step(id, CreatorWrite(Route, gateway), now);
      r := Step(id, CreatorWrite(Process, gateway), now);
    }

    /** Lines 146-243: one pass of the loop. A declined call with a fallback left is
        recorded and given up; anything else ends in SUCCESS or FAILED. */
    method Pass(id: TxnId, gateway: GatewayProvider, last: bool, answer: Outcome, latencyMs: int, now: Time, up: bool)
      returns (row: Transaction)
      requires Wired()
      requires id in store.transactions && store.transactions[id].id == id
      requires store.transactions[id].currentState == INITIATED || store.transactions[id].currentState == RETRY_PENDING
      modifies store, redisService, routingEngine
      ensures var before := old(store.transactions[id]);
              && row == PassRow(before, gateway, answer, last)
              && store.transactions == old(store.transactions)[id := row]
              && store.auditLog == old(store.auditLog) + PassRows(id, before.currentState, gateway, answer, last)
              && routingEngine.State() == PassEngine(old(routingEngine.State()), gateway, answer, latencyMs, now, up)
      ensures routingEngine.stats.Keys == old(routingEngine.stats).Keys
      ensures forall g :: g in routingEngine.stats && g != gateway ==>
                routingEngine.stats[g] == old(routingEngine.stats)[g]
      ensures gateway in routingEngine.stats ==>
                Counted(old(routingEngine.stats)[gateway], routingEngine.stats[gateway], answer, latencyMs)
    {
      hide RE.RecordedFailure, RE.RecordedSuccess, Counted;
      PassCounts(routingEngine.State(), gateway, answer, latencyMs, now, up);
      var _ :- assert Begin(id, gateway, now);
      if answer.Charged? {
        row :- assert Step(id, CreatorWrite(Succeed(answer.gatewayTxnId), gateway), now);
        routingEngine.RecordSuccess(gateway, latencyMs, up);
      } else {
        routingEngine.RecordFailure(gateway, latencyMs, now, up);
        if !last {
          row :- assert Step(id, CreatorWrite(Retry(answer.error), gateway), now);
        } else {
          row :- assert Step(id, CreatorWrite(Fail(answer.error), gateway), now);
        }
      }
    }

    /** The loop of lines 141-246: never a refused transition, never the throw after it. */
    method Execute(saved: Transaction, primary: GatewayProvider, fallbacks: seq<GatewayProvider>,
                   answers: nat -> Outcome, latencies: nat -> int, now: nat -> Time, up: nat -> bool)
      returns (r: Result<Transaction, CreateError>, d: nat)
      requires Wired()
      requires saved.id in store.transactions && store.transactions[saved.id] == saved
      requires saved.currentState == INITIATED && saved.attemptCount == 0 && saved.gatewayTxnId.None?
      modifies store, redisService, routingEngine
      ensures var plan := [primary] + fallbacks;
              && Decides(answers, |plan|, d)
              && r == Ok(FailoverRow(saved, plan, answers, d))
              && store.transactions == old(store.transactions)[saved.id := FailoverRow(saved, plan, answers, d)]
              && store.auditLog == old(store.auditLog) + FailoverRows(saved.id, plan, answers, d)
              && routingEngine.State() == EngineAfter(old(routingEngine.State()), plan, answers, latencies, now, up, d)
              && (Distinct(plan) ==>
                    Tallied(old(routingEngine.stats), routingEngine.stats, plan, answers, latencies, d + 1))
    {
      hide RowAtHead, FailoverRow, DeclinedRows, FailoverRows, PassRow, PassRows, PassEngine, EngineAtHead,
           EngineAfter, Decides, Counted, Tallied, Distinct;
      ghost var plan := [primary] + fallbacks;
      ghost var engine0, log0, rows0 := routingEngine.State(), store.auditLog, store.transactions;
      var currentGateway := Some(primary);
      var fallbackList := fallbacks;
      var lastError := "No gateways available";
      HeadStart(saved, plan, answers, engine0, latencies, now, up);
      var attempt: nat := 0;
      while currentGateway.Some?
        invariant attempt < |plan|
        invariant currentGateway == Some(plan[attempt]) && fallbackList == plan[attempt + 1..]
        invariant forall i: nat :: i < attempt ==> answers(i).Declined?
        invariant store.transactions == rows0[saved.id := RowAtHead(saved, plan, attempt)]
        invariant store.auditLog == log0 + DeclinedRows(saved.id, plan, answers, attempt)
        invariant routingEngine.State() == EngineAtHead(engine0, plan, answers, latencies, now, up, attempt)
        decreases |fallbackList|
      {
        d := attempt;
        HeadStep(saved, plan, answers, attempt);
        EngineStep(engine0, plan, answers, latencies, now, up, attempt);
        var chargeResult := answers(attempt);
        var row := Pass(saved.id, currentGateway.value, |fallbackList| == 0, chargeResult, latencies(attempt),
                        now(attempt + 2), up(attempt + 2));
        if chargeResult.Charged? || |fallbackList| == 0 {
          if Distinct(plan) {
            FailoverIsTallied(engine0, plan, answers, latencies, now, up, d);
          }
          return Ok(row), d;
        }
        lastError := chargeResult.error;
        currentGateway, fallbackList := Some(fallbackList[0]), fallbackList[1..];
        attempt := attempt + 1;
      }
      return Err(PaymentFailed(lastError)), attempt;
    }

    /** Lines 64-91: the key was refused. The GET may find a completed entry or the mark,
        or nothing, when the key has expired or Redis has gone to memory since: then the
        table answers, or it is a conflict. */
    method AnswerHeld(key: string, now: nat -> Time, up: nat -> bool) returns (r: Result<Transaction, CreateError>)
      modifies redisService
      ensures var st := Tried(old(redisService.State()), up(1));
              match Lookup(st, Idempotency(key), now(1))
              case Some(ProcessingMark) => r == Err(Conflict) && redisService.State() == st
              case Some(CompletedWith(t)) => r == Ok(t) && redisService.State() == st
              case _ =>
                if HasKey(store.transactions, key)
                then Replayed(key, store.State(), store.State(), r) &&
                     Cached(redisService.State(), key, r.value, now(2))
                else r == Err(Conflict) && redisService.State() == st
    {
      var cached := redisService.Get(Idempotency(key), now(1), up(1));
      if cached == Some(ProcessingMark) {
        return Err(Conflict);
      }
      if cached.Some? && cached.value.CompletedWith? {
        return Ok(cached.value.transaction);
      }
      var existing := store.FindByKey(key);
      if existing.Some? {
        SetCaches(redisService.State(), key, existing.value, now(2), up(2));
        var _ := redisService.Set(Idempotency(key), CompletedWith(existing.value), None, Some(CACHE_TTL),
                                  now(2), up(2));
        return Ok(existing.value);
      }
      return Err(Conflict);
    }

    /** Lines 93-246: the key was granted. */
    method CreateLocked(dto: CreateTransactionDto, id: TxnId, listing: seq<GatewayProvider>, answers: nat -> Outcome,
                        latencies: nat -> int, now: nat -> Time, up: nat -> bool, reached: GatewayProvider -> bool)
      returns (r: Result<Transaction, CreateError>, d: nat)
      requires Wired() && id !in store.transactions
      requires (forall g <- listing :: g in routingEngine.stats) && Distinct(listing)
      modifies store, redisService, routingEngine
      ensures var key := dto.idempotencyKey;
              if HasKey(old(store.transactions), key) then
                && Replayed(key, old(store.State()), store.State(), r)
                && routingEngine.stats == old(routingEngine.stats)
                && Cached(redisService.State(), key, r.value, now(1))
              else
                var engine := RE.CheckedAll(old(routingEngine.State()), listing, now(1), reached);
                var plan := Routing.Ranked(engine.table, listing, dto.amount);
                && Fulfilled(dto, id, plan, answers, d, old(store.State()), store.State(), r)
                && (if plan == [] then routingEngine.State() == engine
                    else
                      && routingEngine.stats == EngineAfter(engine, plan, answers, latencies, now, up, d).table
                      && Tallied(engine.table, routingEngine.stats, plan, answers, latencies, d + 1)
                      && Cached(redisService.State(), key, r.value, now(d + 3)))
    {
      hide Tallied, RE.CheckedAll, FailoverRows, FailoverRow, EngineAfter, Decides, Cached, HasKey, SetResult,
           Lookup, Tried, Routing.Ranked, EngineAtHead, CreatedLog, OnServer;
      d := 0;
      var existing := store.FindByKey(dto.idempotencyKey);
      if existing.Some? {
        SetCaches(redisService.State(), dto.idempotencyKey, existing.value, now(1), up(1));
        var _ := redisService.Set(Idempotency(dto.idempotencyKey), CompletedWith(existing.value), None,
                                  Some(CACHE_TTL), now(1), up(1));
        return Ok(existing.value), d;
      }
      var rankedGateways := routingEngine.GetRankedGateways(dto.amount, listing, now(1), reached);
      Routing.RankingIsDistinct(routingEngine.stats, listing, dto.amount);
      if |rankedGateways| == 0 {
        return Err(NoGateways), d;
      }
      var primaryGateway, fallbackGateways := rankedGateways[0], rankedGateways[1..];
      assert [primaryGateway] + fallbackGateways == rankedGateways;
      var txn := NewTransaction(id, dto, primaryGateway, fallbackGateways);
      var saved := store.Insert(txn);
      assert saved;
      store.AppendAudit(CreatedLog(id, primaryGateway));
      r, d := Execute(txn, primaryGateway, fallbackGateways, answers, latencies, now, up);
      if r.Ok? {
        SetCaches(redisService.State(), dto.idempotencyKey, r.value, now(d + 3), up(d + 3));
        var _ := redisService.Set(Idempotency(dto.idempotencyKey), CompletedWith(r.value), None,
                                  Some(CACHE_TTL), now(d + 3), up(d + 3));
      }
    }

    /** `create`, alone. A key that is refused is answered from the cache, the table or by a
        conflict; a granted one runs, and is released if no gateway is configured. Each
        call of Redis has its own moment and its own reachability, so the switch to memory
        may come at any point: `now` and `up` at 0 are those of the lock; at 1 of the GET
        after a refusal, of the SET of a stored row, and `now` alone of the ranking, whose
        GETs have `reached`; at i + 2 of pass i; and the last SET or DEL follows. */
    method Create(dto: CreateTransactionDto, id: TxnId, listing: seq<GatewayProvider>, answers: nat -> Outcome,
                  latencies: nat -> int, now: nat -> Time, up: nat -> bool, reached: GatewayProvider -> bool)
      returns (r: Result<Transaction, CreateError>, d: nat)
      requires Wired() && id !in store.transactions
      requires (forall g <- listing :: g in routingEngine.stats) && Distinct(listing)
      modifies store, redisService, routingEngine
      ensures var key, redis := dto.idempotencyKey, old(redisService.State());
              var before := old(store.State());
              var lock := SetResult(redis, Idempotency(key), ProcessingMark, Some(NX), Some(LOCK_TTL), now(0), up(0));
              var seen := Lookup(Tried(lock.st, up(1)), Idempotency(key), now(1));
              var engine := RE.CheckedAll(RE.Engine(old(routingEngine.stats), lock.st), listing, now(1), reached);
              var plan := Routing.Ranked(engine.table, listing, dto.amount);
              var stored := HasKey(before.transactions, key);
              && (lock.ok <==> Lookup(Tried(redis, up(0)), Idempotency(key), now(0)).None?)
              && Responds(dto, id, lock.ok, seen, plan, answers, d, before, store.State(), r)
              && routingEngine.stats ==
                 (if !lock.ok || stored then old(routingEngine.stats)
                  else if plan == [] then engine.table
                  else EngineAfter(engine, plan, answers, latencies, now, up, d).table)
              && (lock.ok && !stored && plan != [] ==>
                    Tallied(engine.table, routingEngine.stats, plan, answers, latencies, d + 1))
              && (r.Ok? && (lock.ok || !(seen.Some? && seen.value.CompletedWith?)) ==>
                    Cached(redisService.State(), key, r.value,
                           if !lock.ok then now(2) else if stored then now(1) else now(d + 3)))
              && (lock.ok && r.Err? ==> Released(redisService.State(), key))
    {
      hide RE.CheckedAll, Routing.Ranked, EngineAfter, Cached, FailoverRows, FailoverRow, Decides, HasKey, Tallied;
      var isLockAcquired :=
        redisService.Set(Idempotency(dto.idempotencyKey), ProcessingMark, Some(NX), Some(LOCK_TTL), now(0), up(0));
      d := 0;
      if !isLockAcquired {
        r := AnswerHeld(dto.idempotencyKey, now, up);
        return;
      }
      r, d := CreateLocked(dto, id, listing, answers, latencies, now, up, reached);
      if r.Err? {
        redisService.Del(Idempotency(dto.idempotencyKey), up(2));
      }
    }
  }
}
