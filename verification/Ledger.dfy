/** One transaction's whole story: every version its row has had and its audit rows.
    The invariants of that story are stated and kept here, one write at a time. */
module Ledger {
  import opened Lifecycle
  import opened Writers

  /** `owner` is the `create` run that inserted the row; `past` holds the versions the
      row had before the present one; `audit` its audit rows in commit order. */
  datatype Ledger = Ledger(owner: nat, past: seq<Transaction>, row: Transaction, audit: seq<AuditLog>)

  /** The loop of the owning run, while that run is still in it. */
  datatype Loop = Loop(gateway: GatewayProvider, rest: seq<GatewayProvider>, stage: Stage)

  // ---------- Reading an audit trail ----------

  /** The audit rows that record a transition: those with a from-state. */
  function Moves(audit: seq<AuditLog>): (moves: seq<AuditLog>)
    ensures forall l <- moves :: l.fromState.Some?
  {
    if audit == [] then []
    else
      var log := audit[|audit| - 1];
      Moves(audit[..|audit| - 1]) + if log.fromState.Some? then [log] else []
  }

  lemma MovesOfAppend(audit: seq<AuditLog>, log: AuditLog)
    ensures Moves(audit + [log]) == Moves(audit) + if log.fromState.Some? then [log] else []
  {
    assert (audit + [log])[..|audit|] == audit;
  }

  function Count(moves: seq<AuditLog>, state: TransactionState): nat {
    if moves == [] then 0
    else Count(moves[..|moves| - 1], state) + if moves[|moves| - 1].toState == state then 1 else 0
  }

  function WebhookRows(moves: seq<AuditLog>): nat {
    if moves == [] then 0
    else WebhookRows(moves[..|moves| - 1]) + if FromWebhook(moves[|moves| - 1].reason) then 1 else 0
  }

  /** The gateways named by the PROCESSING rows of the owning run, in order. */
  function Attempted(moves: seq<AuditLog>): seq<GatewayProvider> {
    if moves == [] then []
    else
      var last := moves[|moves| - 1];
      Attempted(moves[..|moves| - 1]) +
      if last.toState == PROCESSING && !FromWebhook(last.reason) && last.gateway.Some? then [last.gateway.value] else []
  }

  /** The moves form an unbroken walk along the allow-list from `start` to `end`. */
  predicate Walk(start: TransactionState, moves: seq<AuditLog>, end: TransactionState) {
    if moves == [] then start == end
    else
      var last := moves[|moves| - 1];
      && last.toState == end
      && last.fromState.Some?
      && Allowed(last.fromState.value, end)
      && Walk(start, moves[..|moves| - 1], last.fromState.value)
  }

  /** The part of a row that its audit rows determine. */
  datatype Replica = Replica(
    state: TransactionState, gateway: Option<GatewayProvider>, attempts: nat, reconciled: bool)

  function Replay(primary: Option<GatewayProvider>, moves: seq<AuditLog>): Replica {
    if moves == [] then Replica(INITIATED, primary, 0, false)
    else
      var before := Replay(primary, moves[..|moves| - 1]);
      var last := moves[|moves| - 1];
      Replica(last.toState, last.gateway,
              before.attempts + if last.toState == PROCESSING then 1 else 0,
              before.reconciled || last.toState == RECONCILED)
  }

  function Observed(t: Transaction): Replica {
    Replica(t.currentState, t.selectedGateway, t.attemptCount, t.finalReconciledAt.Some?)
  }

  // ---------- The invariants of one ledger ----------

  /** Every version the row has had, oldest first. */
  function History(L: Ledger): seq<Transaction> {
    L.past + [L.row]
  }

  function Born(L: Ledger): Transaction {
    History(L)[0]
  }

  /** The gateways in the order the owning run tries them. */
  function Plan(L: Ledger): seq<GatewayProvider>
    requires Born(L).selectedGateway.Some?
  {
    [Born(L).selectedGateway.value] + Born(L).fallbackGateways
  }

  predicate Fresh(t: Transaction) {
    && t.currentState == INITIATED
    && t.selectedGateway.Some?
    && t.gatewayTxnId.None?
    && t.attemptCount == 0
    && t.finalReconciledAt.None?
  }

  /** Version by version, the row is what replaying the audit rows gives. */
  predicate Chronicle(L: Ledger) {
    var h := History(L);
    var moves := Moves(L.audit);
    && Fresh(h[0])
    && |h| == |moves| + 1
    && (forall n :: 0 <= n < |h| ==> SameOrder(h[0], h[n]))
    && (forall n :: 0 <= n < |h| ==> Observed(h[n]) == Replay(h[0].selectedGateway, moves[..n]))
    && Walk(INITIATED, moves, L.row.currentState)
  }

  /** The gateway's transaction id appears with SUCCESS and then never changes. */
  predicate Receipt(L: Ledger) {
    && (forall t <- History(L) :: t.gatewayTxnId.Some? <==> Paid(t.currentState))
    && (forall t <- History(L) :: t.gatewayTxnId.Some? ==> t.gatewayTxnId == L.row.gatewayTxnId)
  }

  /** The numbers of audit rows by kind. */
  predicate Tally(L: Ledger) {
    var moves := Moves(L.audit);
    var state := L.row.currentState;
    var retries := Count(moves, RETRY_PENDING);
    && |moves| == 3 * retries + Rank(state)
    && L.row.attemptCount == Count(moves, PROCESSING) == retries + (if Rank(state) >= 2 then 1 else 0)
    && Count(moves, SUCCESS) == (if Paid(state) then 1 else 0)
    && Count(moves, FAILED) == (if state == FAILED then 1 else 0)
    && Count(moves, RECONCILED) == (if state == RECONCILED then 1 else 0)
    && WebhookRows(moves) <= Rank(state)
  }

  /** Rows written from webhooks form a suffix of the trail. */
  predicate HandedOver(moves: seq<AuditLog>) {
    forall i, j :: 0 <= i < j < |moves| && FromWebhook(moves[i].reason) ==> FromWebhook(moves[j].reason)
  }

  /** Progress inside one attempt that the run's next write presupposes. */
  function StageRank(stage: Stage): nat {
    match stage
    case LogCreated | Route => 0
    case Process => 1
    case _ => 2
  }

  /** The owning run and the row agree until a webhook row is written; from then on
      the row is ahead of everything the run could still write. */
  predicate InStep(L: Ledger, loop: Option<Loop>) {
    var moves := Moves(L.audit);
    var retries := Count(moves, RETRY_PENDING);
    && Born(L).selectedGateway.Some?
    && retries <= |Born(L).fallbackGateways|
    && HandedOver(moves)
    && (loop.Some? ==>
          && loop.value.gateway == Plan(L)[retries]
          && loop.value.rest == Plan(L)[retries + 1..]
          && (loop.value.stage.Retry? ==> |loop.value.rest| > 0)
          && (loop.value.stage.Fail? ==> |loop.value.rest| == 0)
          && (if WebhookRows(moves) == 0
              then StageRank(loop.value.stage) == Rank(L.row.currentState)
              else StageRank(loop.value.stage) < Rank(L.row.currentState)))
  }

  /** True from the charge call of an attempt on. */
  predicate CallMade(stage: Stage) {
    stage.Await? || stage.Succeed? || stage.Retry? || stage.Fail?
  }

  /** The gateways charged so far are the first ones of the plan, in order. */
  predicate Billed(L: Ledger, loop: Option<Loop>, charged: seq<GatewayProvider>) {
    var retries := Count(Moves(L.audit), RETRY_PENDING);
    && Born(L).selectedGateway.Some?
    && retries <= |charged| <= retries + 1
    && |charged| <= |Plan(L)|
    && charged == Plan(L)[..|charged|]
    && (loop.Some? ==> |charged| == retries + if CallMade(loop.value.stage) then 1 else 0)
  }

  /** Before each charge call the owning run has recorded the attempt, and the attempts it
      has recorded are the first ones of the plan; no webhook row gives an attempt up. */
  predicate Recorded(L: Ledger, loop: Option<Loop>, charged: seq<GatewayProvider>) {
    var moves := Moves(L.audit);
    var attempted := Attempted(moves);
    var retries := Count(moves, RETRY_PENDING);
    && Born(L).selectedGateway.Some?
    && attempted <= Plan(L)
    && |charged| <= |attempted| <= |charged| + 1
    && retries <= |attempted| <= retries + 1
    && (loop.Some? ==> |attempted| == retries + if StageRank(loop.value.stage) == 2 then 1 else 0)
    && (forall l <- moves :: FromWebhook(l.reason) ==> l.toState != RETRY_PENDING && l.toState != FAILED)
  }

  predicate Sane(L: Ledger, loop: Option<Loop>, charged: seq<GatewayProvider>) {
    && Chronicle(L)
    && Receipt(L)
    && Tally(L)
    && InStep(L, loop)
    && Billed(L, loop, charged)
    && Recorded(L, loop, charged)
    && Distinct(Plan(L))
  }

  // ---------- Writing to a ledger ----------

  /** The ledger after a write that the allow-list accepts. */
  function Moved(L: Ledger, w: Write, now: Time): Ledger
    requires Allowed(L.row.currentState, w.toState)
  {
    var written := Transit(L.row, w.toState, w.metadata, now).value;
    L.(past := History(L), row := written.row, audit := L.audit + [written.log])
  }

  lemma MovedParts(L: Ledger, w: Write, now: Time)
    requires Allowed(L.row.currentState, w.toState)
    ensures var M := Moved(L, w, now);
            var log := Transit(L.row, w.toState, w.metadata, now).value.log;
            && History(M) == History(L) + [M.row]
            && History(M)[..|M.past|] == History(L)
            && Born(M) == Born(L)
            && SameOrder(L.row, M.row)
            && Moves(M.audit) == Moves(L.audit) + [log]
            && Moves(M.audit)[..|Moves(L.audit)|] == Moves(L.audit)
            && log.fromState == Some(L.row.currentState) && log.toState == M.row.currentState == w.toState
            && log.gateway == M.row.selectedGateway && log.reason == w.metadata.reason
            && Count(Moves(M.audit), RETRY_PENDING) ==
               Count(Moves(L.audit), RETRY_PENDING) + (if w.toState == RETRY_PENDING then 1 else 0)
            && WebhookRows(Moves(M.audit)) ==
               WebhookRows(Moves(L.audit)) + (if FromWebhook(w.metadata.reason) then 1 else 0)
  {
    TransitLogsTheRow(L.row, w.toState, w.metadata, now);
    var log := Transit(L.row, w.toState, w.metadata, now).value.log;
    MovesOfAppend(L.audit, log);
    assert (Moves(L.audit) + [log])[..|Moves(L.audit)|] == Moves(L.audit);
  }

  /** The present version is what the whole trail replays to. */
  lemma LastVersionReplays(L: Ledger)
    requires Chronicle(L)
    ensures SameOrder(Born(L), L.row) && Walk(INITIATED, Moves(L.audit), L.row.currentState)
    ensures Observed(L.row) == Replay(Born(L).selectedGateway, Moves(L.audit))
  {
    hide Observed, Replay, Walk, SameOrder, Moves;
    var moves := Moves(L.audit);
    assert moves[..|moves|] == moves;
    assert History(L)[|moves|] == L.row;
  }

  /** The row after a write is what one more audit row replays to. */
  lemma NextVersionReplays(primary: Option<GatewayProvider>, moves: seq<AuditLog>, t: Transaction, w: Write, now: Time)
    requires Observed(t) == Replay(primary, moves) && t.finalReconciledAt.None?
    requires Sound(w) && Allowed(t.currentState, w.toState)
    ensures var written := Transit(t, w.toState, w.metadata, now).value;
            Observed(written.row) == Replay(primary, moves + [written.log])
  {
    TransitLogsTheRow(t, w.toState, w.metadata, now);
    var longer := moves + [Transit(t, w.toState, w.metadata, now).value.log];
    assert longer[..|longer| - 1] == moves;
  }

  lemma OneMoreVersion(h: seq<Transaction>, moves: seq<AuditLog>, t: Transaction, log: AuditLog)
    requires |h| == |moves| + 1
    requires forall n :: 0 <= n < |h| ==> SameOrder(h[0], h[n])
    requires forall n :: 0 <= n < |h| ==> Observed(h[n]) == Replay(h[0].selectedGateway, moves[..n])
    requires SameOrder(h[0], t) && Observed(t) == Replay(h[0].selectedGateway, moves + [log])
    ensures forall n :: 0 <= n <= |h| ==> SameOrder(h[0], (h + [t])[n])
    ensures forall n :: 0 <= n <= |h| ==> Observed((h + [t])[n]) == Replay(h[0].selectedGateway, (moves + [log])[..n])
  {
    hide Observed, Replay, SameOrder;
    var longer := moves + [log];
    assert longer[..|h|] == longer;
    assert forall n :: 0 <= n < |h| ==> longer[..n] == moves[..n];
  }

  lemma WalkGoesOn(start: TransactionState, moves: seq<AuditLog>, middle: TransactionState, log: AuditLog)
    requires Walk(start, moves, middle) && log.fromState == Some(middle) && Allowed(middle, log.toState)
    ensures Walk(start, moves + [log], log.toState)
  {
    assert (moves + [log])[..|moves|] == moves;
  }

  lemma WriteKeepsChronicle(L: Ledger, w: Write, now: Time)
    requires Chronicle(L) && Sound(w) && Allowed(L.row.currentState, w.toState)
    ensures Chronicle(Moved(L, w, now))
  {
    TransitLogsTheRow(L.row, w.toState, w.metadata, now);
    hide Walk, Moves, Transit, Count, WebhookRows, Observed, Replay, Sound;
    var log := Transit(L.row, w.toState, w.metadata, now).value.log;
    MovedParts(L, w, now);
    LastVersionReplays(L);
    WalkStopsAtReconciled(L);
    NextVersionReplays(Born(L).selectedGateway, Moves(L.audit), L.row, w, now);
    OneMoreVersion(History(L), Moves(L.audit), Moved(L, w, now).row, log);
    WalkGoesOn(INITIATED, Moves(L.audit), L.row.currentState, log);
  }

  /** A row that can still move has no reconciliation time. */
  lemma WalkStopsAtReconciled(L: Ledger)
    requires Chronicle(L) && L.row.currentState != RECONCILED
    ensures L.row.finalReconciledAt.None?
  {
    LastVersionReplays(L);
    NotReconciledMidway(Born(L).selectedGateway, Moves(L.audit), L.row.currentState);
  }

  lemma {:induction false} NotReconciledMidway(
      primary: Option<GatewayProvider>, moves: seq<AuditLog>, end: TransactionState)
    requires Walk(INITIATED, moves, end)
    ensures Replay(primary, moves).reconciled <==> end == RECONCILED
  {
    if moves == [] {
    } else {
      NotReconciledMidway(primary, moves[..|moves| - 1], moves[|moves| - 1].fromState.value);
    }
  }

  lemma WriteKeepsReceipt(L: Ledger, w: Write, now: Time)
    requires Receipt(L) && Sound(w) && Allowed(L.row.currentState, w.toState)
    ensures Receipt(Moved(L, w, now))
  {
    var M := Moved(L, w, now);
    MovedParts(L, w, now);
    assert L.row in History(L);
    forall t | t in History(M)
      ensures t.gatewayTxnId.Some? <==> Paid(t.currentState)
      ensures t.gatewayTxnId.Some? ==> t.gatewayTxnId == M.row.gatewayTxnId
    {
      assert t in History(L) || t == M.row;
    }
  }

  /** Neither actor writes FAILED over RETRY_PENDING, although the allow-list has it. */
  predicate Straight(L: Ledger, w: Write) {
    !(L.row.currentState == RETRY_PENDING && w.toState == FAILED)
  }

  lemma WriteKeepsTally(L: Ledger, w: Write, now: Time)
    requires Tally(L) && Sound(w) && Allowed(L.row.currentState, w.toState) && Straight(L, w)
    requires FromWebhook(w.metadata.reason) ==> Rank(w.toState) > Rank(L.row.currentState)
    requires !FromWebhook(w.metadata.reason) ==> WebhookRows(Moves(L.audit)) == 0
    ensures Tally(Moved(L, w, now))
  {
    MovedParts(L, w, now);
  }

  /** The owning run's write goes through only if no webhook row has been written. */
  lemma CreatorWriteNeedsQuiet(L: Ledger, loop: Loop)
    requires InStep(L, Some(loop)) && Writes(loop.stage)
    requires Allowed(L.row.currentState, CreatorWrite(loop.stage, loop.gateway).toState)
    ensures WebhookRows(Moves(L.audit)) == 0
    ensures Rank(L.row.currentState) == StageRank(loop.stage)
  {
  }

  /** The loop after its write succeeded; None when the write ends the run's loop. */
  function AfterWrite(loop: Loop): Option<Loop>
    requires Writes(loop.stage)
  {
    match loop.stage
    case Route => Some(loop.(stage := Process))
    case Process => Some(loop.(stage := Call))
    case Retry(_) => if |loop.rest| > 0 then Some(Loop(loop.rest[0], loop.rest[1..], Route)) else None
    case _ => None
  }

  lemma {:induction false} QuietTrail(moves: seq<AuditLog>)
    requires WebhookRows(moves) == 0
    ensures forall l <- moves :: !FromWebhook(l.reason)
  {
    if moves == [] {
    } else {
      QuietTrail(moves[..|moves| - 1]);
      assert moves == moves[..|moves| - 1] + [moves[|moves| - 1]];
    }
  }

  /** How a successful write of the owning run changes the two counts. */
  lemma CreatorWriteCounts(L: Ledger, loop: Loop, now: Time)
    requires InStep(L, Some(loop)) && Writes(loop.stage)
    requires Allowed(L.row.currentState, CreatorWrite(loop.stage, loop.gateway).toState)
    ensures var M := Moved(L, CreatorWrite(loop.stage, loop.gateway), now);
            && Count(Moves(M.audit), RETRY_PENDING) ==
               Count(Moves(L.audit), RETRY_PENDING) + (if loop.stage.Retry? then 1 else 0)
            && WebhookRows(Moves(M.audit)) == 0
            && HandedOver(Moves(M.audit))
            && Plan(M) == Plan(L)
  {
    hide Walk, Replay, Moved, Moves;
    var w := CreatorWrite(loop.stage, loop.gateway);
    CreatorWriteNeedsQuiet(L, loop);
    MovedParts(L, w, now);
    QuietTrail(Moves(Moved(L, w, now).audit));
  }

  lemma CreatorWriteKeepsInStep(L: Ledger, loop: Loop, now: Time)
    requires InStep(L, Some(loop)) && Writes(loop.stage)
    requires Allowed(L.row.currentState, CreatorWrite(loop.stage, loop.gateway).toState)
    ensures InStep(Moved(L, CreatorWrite(loop.stage, loop.gateway), now), AfterWrite(loop))
  {
    hide Count, Moves, WebhookRows, HandedOver;
    CreatorWriteNeedsQuiet(L, loop);
    CreatorWriteCounts(L, loop, now);
    MovedParts(L, CreatorWrite(loop.stage, loop.gateway), now);
    var tail := Plan(L)[Count(Moves(L.audit), RETRY_PENDING) + 1..];
    assert loop.stage.Retry? ==> tail[1..] == Plan(L)[Count(Moves(L.audit), RETRY_PENDING) + 2..];
  }

  lemma CreatorWriteKeepsBilled(L: Ledger, loop: Loop, now: Time, charged: seq<GatewayProvider>)
    requires InStep(L, Some(loop)) && Billed(L, Some(loop), charged) && Writes(loop.stage)
    requires Allowed(L.row.currentState, CreatorWrite(loop.stage, loop.gateway).toState)
    ensures Billed(Moved(L, CreatorWrite(loop.stage, loop.gateway), now), AfterWrite(loop), charged)
  {
    hide Count, Moves, WebhookRows, HandedOver, Transit;
    CreatorWriteCounts(L, loop, now);
    MovedParts(L, CreatorWrite(loop.stage, loop.gateway), now);
  }

  lemma CreatorWriteKeepsRecorded(L: Ledger, loop: Loop, now: Time, charged: seq<GatewayProvider>)
    requires InStep(L, Some(loop)) && Billed(L, Some(loop), charged) && Recorded(L, Some(loop), charged)
    requires Writes(loop.stage)
    requires Allowed(L.row.currentState, CreatorWrite(loop.stage, loop.gateway).toState)
    ensures Recorded(Moved(L, CreatorWrite(loop.stage, loop.gateway), now), AfterWrite(loop), charged)
  {
    hide Count, Moves, WebhookRows, HandedOver, Transit;
    CreatorWriteCounts(L, loop, now);
    MovedParts(L, CreatorWrite(loop.stage, loop.gateway), now);
    MovedGateway(L, CreatorWrite(loop.stage, loop.gateway), now);
    var before := Attempted(Moves(L.audit));
    assert loop.stage.Process? ==> before + [loop.gateway] <= Plan(L) by {
      assert loop.stage.Process? ==> Plan(L)[..|before| + 1] == Plan(L)[..|before|] + [loop.gateway];
    }
  }

  lemma MovedGateway(L: Ledger, w: Write, now: Time)
    requires Allowed(L.row.currentState, w.toState) && w.metadata.gateway.Put? && w.metadata.gateway.value.Some?
    ensures var M := Moved(L, w, now);
            && M.row.selectedGateway == w.metadata.gateway.value
            && Attempted(Moves(M.audit)) ==
               Attempted(Moves(L.audit)) +
               (if w.toState == PROCESSING && !FromWebhook(w.metadata.reason)
                then [w.metadata.gateway.value.value] else [])
  {
    hide Moves, Count, WebhookRows;
    MovedParts(L, w, now);
  }

  lemma CreatorWriteKeepsSane(L: Ledger, loop: Loop, now: Time, charged: seq<GatewayProvider>)
    requires Sane(L, Some(loop), charged) && Writes(loop.stage)
    requires Allowed(L.row.currentState, CreatorWrite(loop.stage, loop.gateway).toState)
    ensures Sane(Moved(L, CreatorWrite(loop.stage, loop.gateway), now), AfterWrite(loop), charged)
  {
    hide Chronicle, Receipt, Tally, InStep, Billed, Recorded, Moved, Moves, WebhookRows, Count, Distinct, Transit,
         AfterWrite;
    var w := CreatorWrite(loop.stage, loop.gateway);
    CreatorWriteNeedsQuiet(L, loop);
    WriteKeepsChronicle(L, w, now);
    WriteKeepsReceipt(L, w, now);
    WriteKeepsTally(L, w, now);
    CreatorWriteKeepsInStep(L, loop, now);
    CreatorWriteKeepsBilled(L, loop, now, charged);
    CreatorWriteKeepsRecorded(L, loop, now, charged);
    CreatorWriteCounts(L, loop, now);
  }

  lemma WebhookWriteKeepsInStep(
      L: Ledger, loop: Option<Loop>, w: Write, now: Time, charged: seq<GatewayProvider>)
    requires InStep(L, loop) && Billed(L, loop, charged) && FromWebhook(w.metadata.reason)
    requires Allowed(L.row.currentState, w.toState) && Rank(w.toState) > Rank(L.row.currentState)
    requires w.toState != RETRY_PENDING
    ensures InStep(Moved(L, w, now), loop) && Billed(Moved(L, w, now), loop, charged)
    ensures Plan(Moved(L, w, now)) == Plan(L)
  {
    MovedParts(L, w, now);
  }

  lemma WebhookWriteKeepsRecorded(
      L: Ledger, loop: Option<Loop>, w: Write, now: Time, charged: seq<GatewayProvider>)
    requires Recorded(L, loop, charged) && Sound(w) && FromWebhook(w.metadata.reason)
    requires Allowed(L.row.currentState, w.toState) && w.toState != FAILED && w.toState != RETRY_PENDING
    ensures Recorded(Moved(L, w, now), loop, charged)
  {
    hide Count, Moves, WebhookRows, Transit;
    MovedParts(L, w, now);
    MovedGateway(L, w, now);
  }

  lemma WebhookWriteKeepsSane(
      L: Ledger, loop: Option<Loop>, w: Write, now: Time, charged: seq<GatewayProvider>)
    requires Sane(L, loop, charged) && Sound(w) && FromWebhook(w.metadata.reason)
    requires Allowed(L.row.currentState, w.toState) && Rank(w.toState) > Rank(L.row.currentState)
    requires w.toState != FAILED && w.toState != RETRY_PENDING
    ensures Sane(Moved(L, w, now), loop, charged)
  {
    hide Chronicle, Receipt, Tally, InStep, Billed, Recorded, Moved, Moves, WebhookRows, Count, Distinct, Transit;
    WriteKeepsChronicle(L, w, now);
    WriteKeepsReceipt(L, w, now);
    WriteKeepsTally(L, w, now);
    WebhookWriteKeepsInStep(L, loop, w, now, charged);
    WebhookWriteKeepsRecorded(L, loop, w, now, charged);
  }

  /** A webhook write that the allow-list accepts always moves the attempt forward. */
  lemma WorkerWriteClimbs(local: TransactionState, actual: TransactionState,
                          gateway: GatewayProvider, gatewayTxnId: string)
    requires WorkerWrite(local, gateway, gatewayTxnId).Some?
    requires Allowed(actual, WorkerWrite(local, gateway, gatewayTxnId).value.toState)
    ensures var w := WorkerWrite(local, gateway, gatewayTxnId).value;
            && Sound(w) && FromWebhook(w.metadata.reason)
            && Rank(w.toState) == Rank(actual) + 1
            && w.toState != FAILED && w.toState != RETRY_PENDING
  {
  }

  /** An accepted charge call adds its gateway to the bill. */
  lemma CallKeepsSane(L: Ledger, loop: Loop, charged: seq<GatewayProvider>)
    requires Sane(L, Some(loop), charged) && loop.stage.Call?
    ensures Sane(L, Some(loop.(stage := Await)), charged + [loop.gateway])
  {
    hide Chronicle, Receipt, Tally, Count, WebhookRows, Moves;
  }

  lemma AnswerKeepsSane(L: Ledger, loop: Loop, charged: seq<GatewayProvider>, outcome: Outcome)
    requires Sane(L, Some(loop), charged) && loop.stage.Await?
    ensures Sane(L, Some(loop.(stage := AfterCall(outcome, loop.rest))), charged)
  {
    hide Chronicle, Receipt, Tally, Count, WebhookRows, Moves;
  }

  /** The owning run may leave its loop at any moment. */
  lemma LeavingKeepsSane(L: Ledger, loop: Option<Loop>, charged: seq<GatewayProvider>)
    requires Sane(L, loop, charged)
    ensures Sane(L, None, charged)
  {
  }

  /** A row just inserted, before its first audit row. */
  lemma NewLedgerIsSane(owner: nat, t: Transaction, primary: GatewayProvider, fallbacks: seq<GatewayProvider>)
    requires Fresh(t) && t.selectedGateway == Some(primary) && t.fallbackGateways == fallbacks
    requires Distinct([primary] + fallbacks)
    ensures Sane(Ledger(owner, [], t, []), Some(Loop(primary, fallbacks, LogCreated)), [])
  {
    var L := Ledger(owner, [], t, []);
    assert Plan(L)[1..] == fallbacks;
    assert Plan(L)[..0] == [];
  }

  /** Audit rows without a from-state change none of this. */
  lemma NoteKeepsSane(L: Ledger, loop: Loop, charged: seq<GatewayProvider>, log: AuditLog)
    requires Sane(L, Some(loop), charged) && log.fromState.None? && loop.stage.LogCreated?
    ensures Sane(L.(audit := L.audit + [log]), Some(loop.(stage := Route)), charged)
  {
    hide Count, WebhookRows, Replay, Walk, Observed, SameOrder, Fresh;
    MovesOfAppend(L.audit, log);
    var N := L.(audit := L.audit + [log]);
    assert Moves(N.audit) == Moves(L.audit);
    assert History(N) == History(L);
    assert Plan(N) == Plan(L);
  }
}
