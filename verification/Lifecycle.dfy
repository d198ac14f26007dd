/** The transaction lifecycle: the enums, the allow-list of transitions, the row
    and audit-log entities, and what one validated transition does to a row. */
module Lifecycle {

  datatype Option<+T> = None | Some(value: T)

  datatype Result<+T, +E> = Ok(value: T) | Err(error: E) {
    predicate IsFailure() {
      Err?
    }

    function PropagateFailure<U>(): Result<U, E>
      requires Err?
    {
      Err(error)
    }

    function Extract(): T
      requires Ok?
    {
      value
    }
  }

  datatype TransactionState =
    INITIATED | ROUTED | PROCESSING | RETRY_PENDING | SUCCESS | FAILED | RECONCILED

  datatype GatewayProvider = STRIPE | RAZORPAY | PAYU | UPI

  datatype CircuitState = CLOSED | OPEN | HALF_OPEN

  type TxnId = nat
  type RecordId = nat
  type Time = nat

  function ValidTransitions(state: TransactionState): set<TransactionState> {
    match state
    case INITIATED => {ROUTED}
    case ROUTED => {PROCESSING}
    case PROCESSING => {SUCCESS, FAILED, RETRY_PENDING}
    case RETRY_PENDING => {ROUTED, FAILED}
    case SUCCESS => {RECONCILED}
    case FAILED => {}
    case RECONCILED => {}
  }

  predicate Allowed(fromState: TransactionState, toState: TransactionState) {
    toState in ValidTransitions(fromState)
  }

  /** How far inside one attempt a state lies. Only RETRY_PENDING steps back. */
  function Rank(state: TransactionState): nat {
    match state
    case INITIATED | RETRY_PENDING => 0
    case ROUTED => 1
    case PROCESSING => 2
    case SUCCESS | FAILED => 3
    case RECONCILED => 4
  }

  /** The allow-list is one step forward in rank, never out of FAILED, plus the two ways to and
      from a retry that break this. */
  lemma AllowListIsForward(a: TransactionState, b: TransactionState)
    ensures Allowed(a, b) <==>
              || (Rank(b) == Rank(a) + 1 && a != FAILED)
              || (a == PROCESSING && b == RETRY_PENDING)
              || (a == RETRY_PENDING && b == FAILED)
  {
  }

  predicate Paid(state: TransactionState) {
    state == SUCCESS || state == RECONCILED
  }

  /** No transition leaves a settled state. */
  predicate Settled(state: TransactionState) {
    state == FAILED || state == RECONCILED
  }

  /** The texts written to `audit_log.reason`, one constructor for each text. */
  datatype Reason =
    | TransactionCreated
    | GatewaySelected(gateway: GatewayProvider)
    | InitiatingCall(gateway: GatewayProvider)
    | ChargeSucceeded
    | AttemptFailed(gateway: GatewayProvider, error: string)
    | AllAttemptsFailed(error: string)
    | WebhookRouting
    | WebhookRoutingAfterRetry
    | WebhookProcessing
    | WebhookSuccess
    | WebhookCompleted

  /** The reason text tells which of the two actors wrote an audit row. */
  predicate FromWebhook(reason: Option<Reason>) {
    && reason.Some?
    && (reason.value.WebhookRouting? || reason.value.WebhookRoutingAfterRetry? ||
        reason.value.WebhookProcessing? || reason.value.WebhookSuccess? ||
        reason.value.WebhookCompleted?)
  }

  datatype Transaction = Transaction(
    id: TxnId,
    idempotencyKey: string,
    merchantId: string,
    amount: int,
    currency: string,
    currentState: TransactionState,
    selectedGateway: Option<GatewayProvider>,
    gatewayTxnId: Option<string>,
    fallbackGateways: seq<GatewayProvider>,
    attemptCount: nat,
    finalReconciledAt: Option<Time>)

  datatype AuditLog = AuditLog(
    transactionId: TxnId,
    fromState: Option<TransactionState>,
    toState: TransactionState,
    gateway: Option<GatewayProvider>,
    reason: Option<Reason>)

  datatype CreateTransactionDto = CreateTransactionDto(
    idempotencyKey: string,
    merchantId: string,
    amount: int,
    currency: string)

  /** An optional property: JavaScript's `undefined`, or a value (possibly null). */
  datatype Patch<+T> = Absent | Put(value: T)

  datatype Metadata = Metadata(
    gateway: Patch<Option<GatewayProvider>>,
    gatewayTxnId: Patch<Option<string>>,
    reason: Option<Reason>,
    incrementAttempt: bool)

  datatype TransitionError =
    | NotFound(id: TxnId)
    | InvalidTransition(fromState: TransactionState, toState: TransactionState)

  datatype Written = Written(row: Transaction, log: AuditLog)

  /** The row `create` inserts. */
  function NewTransaction(id: TxnId, dto: CreateTransactionDto, primary: GatewayProvider,
                          fallbacks: seq<GatewayProvider>): Transaction
  {
    Transaction(id, dto.idempotencyKey, dto.merchantId, dto.amount, dto.currency, INITIATED,
                Some(primary), None, fallbacks, 0, None)
  }

  /** The audit row `create` inserts beside it. */
  function CreatedLog(id: TxnId, primary: GatewayProvider): AuditLog {
    AuditLog(id, None, INITIATED, Some(primary), Some(TransactionCreated))
  }

  /** One validated transition of a row: the new row and its audit entry. */
  function Transit(t: Transaction, toState: TransactionState, m: Metadata, now: Time)
    : (r: Result<Written, TransitionError>)
  {
    if !Allowed(t.currentState, toState) then Err(InvalidTransition(t.currentState, toState))
    else
      var row := t.(
        currentState := toState,
        selectedGateway := if m.gateway.Put? then m.gateway.value else t.selectedGateway,
        gatewayTxnId := if m.gatewayTxnId.Put? then m.gatewayTxnId.value else t.gatewayTxnId,
        attemptCount := if m.incrementAttempt then t.attemptCount + 1 else t.attemptCount,
        finalReconciledAt := if toState == RECONCILED then Some(now) else t.finalReconciledAt);
      var gateway := if m.gateway.Put? && m.gateway.value.Some? then m.gateway.value else row.selectedGateway;
      Ok(Written(row, AuditLog(t.id, Some(t.currentState), toState, gateway, m.reason)))
  }

  /** Two versions of one row agree on everything fixed at insertion. */
  predicate SameOrder(a: Transaction, b: Transaction) {
    && a.id == b.id
    && a.idempotencyKey == b.idempotencyKey
    && a.merchantId == b.merchantId
    && a.amount == b.amount
    && a.currency == b.currency
    && a.fallbackGateways == b.fallbackGateways
  }

  /** A transition sets what the caller sends, keeps what the caller leaves out, and never
      rewrites the identity. The audit row names the gateway the row was left with, even
      when the caller sends null or leaves the gateway out. */
  lemma TransitLogsTheRow(t: Transaction, toState: TransactionState, m: Metadata, now: Time)
    ensures var r := Transit(t, toState, m, now);
            && (r.Ok? <==> Allowed(t.currentState, toState))
            && (r.Ok? ==>
                  && r.value.log.gateway == r.value.row.selectedGateway
                  && r.value.log.transactionId == t.id && r.value.log.reason == m.reason
                  && r.value.log.fromState == Some(t.currentState)
                  && r.value.log.toState == r.value.row.currentState == toState
                  && (m.gateway.Absent? ==> r.value.row.selectedGateway == t.selectedGateway)
                  && (m.gateway.Put? ==> r.value.row.selectedGateway == m.gateway.value)
                  && (m.gatewayTxnId.Absent? ==> r.value.row.gatewayTxnId == t.gatewayTxnId)
                  && (m.gatewayTxnId.Put? ==> r.value.row.gatewayTxnId == m.gatewayTxnId.value)
                  && r.value.row.attemptCount == t.attemptCount + (if m.incrementAttempt then 1 else 0)
                  && r.value.row.finalReconciledAt ==
                     (if toState == RECONCILED then Some(now) else t.finalReconciledAt)
                  && SameOrder(t, r.value.row))
  {
  }

  predicate Distinct<T(==)>(xs: seq<T>) {
    forall i, j :: 0 <= i < j < |xs| ==> xs[i] != xs[j]
  }
}
