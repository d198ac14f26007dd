/** Who writes which transition: the target state and metadata each call site passes
    to `StateMachineService.transition`. */
module Writers {
  import opened Lifecycle

  datatype Write = Write(toState: TransactionState, metadata: Metadata)

  /** Where the loop of one `create` run stands. Failed calls carry their error. */
  datatype Stage =
    | LogCreated
    | Route
    | Process
    | Call
    | Await
    | Succeed(gatewayTxnId: string)
    | Retry(error: string)
    | Fail(error: string)

  /** The stages at which `create` calls `transition`. */
  predicate Writes(stage: Stage) {
    stage.Route? || stage.Process? || stage.Succeed? || stage.Retry? || stage.Fail?
  }

  function CreatorWrite(stage: Stage, gateway: GatewayProvider): Write
    requires Writes(stage)
  {
    match stage
    case Route => Write(ROUTED, Metadata(Put(Some(gateway)), Absent, Some(GatewaySelected(gateway)), false))
    case Process => Write(PROCESSING, Metadata(Put(Some(gateway)), Absent, Some(InitiatingCall(gateway)), true))
    case Succeed(id) => Write(SUCCESS, Metadata(Put(Some(gateway)), Put(Some(id)), Some(ChargeSucceeded), false))
    case Retry(e) => Write(RETRY_PENDING, Metadata(Put(Some(gateway)), Absent, Some(AttemptFailed(gateway, e)), false))
    case Fail(e) => Write(FAILED, Metadata(Put(Some(gateway)), Absent, Some(AllAttemptsFailed(e)), false))
  }

  /** What `driveToReconciled` writes next, given the state it holds locally. */
  function WorkerWrite(local: TransactionState, gateway: GatewayProvider, gatewayTxnId: string): Option<Write> {
    match local
    case INITIATED => Some(Write(ROUTED, Metadata(Put(Some(gateway)), Absent, Some(WebhookRouting), false)))
    case RETRY_PENDING =>
      Some(Write(ROUTED, Metadata(Put(Some(gateway)), Absent, Some(WebhookRoutingAfterRetry), false)))
    case ROUTED => Some(Write(PROCESSING, Metadata(Put(Some(gateway)), Absent, Some(WebhookProcessing), true)))
    case PROCESSING =>
      Some(Write(SUCCESS, Metadata(Put(Some(gateway)), Put(Some(gatewayTxnId)), Some(WebhookSuccess), false)))
    case SUCCESS => Some(Write(RECONCILED, Metadata(Put(Some(gateway)), Absent, Some(WebhookCompleted), false)))
    case FAILED => None
    case RECONCILED => None
  }

  /** What the answer to a charge call leads to. */
  datatype Outcome =
    | Charged(gatewayTxnId: string)
    | Declined(error: string)   // an error answer, a network error or the 1.5 s timeout

  function AfterCall(outcome: Outcome, rest: seq<GatewayProvider>): Stage {
    match outcome
    case Charged(id) => Succeed(id)
    case Declined(e) => if |rest| > 0 then Retry(e) else Fail(e)
  }

  /** Every write names a gateway, sets the gateway's transaction id exactly at SUCCESS
      and counts an attempt exactly at PROCESSING. */
  predicate Sound(w: Write) {
    && w.metadata.gateway.Put? && w.metadata.gateway.value.Some?
    && (if w.toState == SUCCESS
        then w.metadata.gatewayTxnId.Put? && w.metadata.gatewayTxnId.value.Some?
        else w.metadata.gatewayTxnId.Absent?)
    && (w.metadata.incrementAttempt <==> w.toState == PROCESSING)
  }
}
