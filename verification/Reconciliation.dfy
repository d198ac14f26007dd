/** `ReconciliationWorkerService` run by itself: driving one row to RECONCILED from a
    state read earlier, and processing one queued event. */
module Reconciliation {
  import opened Lifecycle
  import opened Writers
  import opened StateMachine
  import opened Webhooks

  // ---------- What driving does ----------

  datatype Driven = Driven(row: Transaction, rows: seq<AuditLog>, ok: bool)

  /** The writes of `driveToReconciled` on `row`, from the state held locally. */
  function Drive(local: TransactionState, row: Transaction, g: GatewayProvider, id: string, now: Time): Driven
    decreases 4 - Rank(local)
  {
    match WorkerWrite(local, g, id)
    case None => Driven(row, [], true)
    case Some(w) =>
      match Transit(row, w.toState, w.metadata, now)
      case Err(_) => Driven(row, [], false)
      case Ok(written) =>
        var rest := Drive(w.toState, written.row, g, id, now);
        Driven(rest.row, [written.log] + rest.rows, rest.ok)
  }

  lemma DrivingClimbs(local: TransactionState, g: GatewayProvider, id: string)
    ensures var w := WorkerWrite(local, g, id); w.Some? ==> Rank(w.value.toState) > Rank(local)
  {
  }

  /** Driving, one transition at a time. */
  lemma DriveGoesOn(local: TransactionState, row: Transaction, g: GatewayProvider, id: string, now: Time)
    ensures var driven := Drive(local, row, g, id, now);
            match WorkerWrite(local, g, id)
            case None => driven == Driven(row, [], true)
            case Some(w) =>
              if !Allowed(row.currentState, w.toState) then driven == Driven(row, [], false)
              else
                var written := Transit(row, w.toState, w.metadata, now).value;
                var rest := Drive(w.toState, written.row, g, id, now);
                driven == Driven(rest.row, [written.log] + rest.rows, rest.ok)
  {
    var write := WorkerWrite(local, g, id);
    if write.Some? {
      TransitLogsTheRow(row, write.value.toState, write.value.metadata, now);
    }
    hide WorkerWrite, Transit, Allowed, Rank;
  }

  /** The local state need not be the row's: driving succeeds exactly when it is settled or
      stands as far inside its attempt as the row does, and a row that has failed since is
      never taken on. */
  lemma {:induction false} DriveSucceedsIff(
      local: TransactionState, row: Transaction, g: GatewayProvider, id: string, now: Time)
    ensures Drive(local, row, g, id, now).ok <==>
              Settled(local) || (Rank(row.currentState) == Rank(local) && row.currentState != FAILED)
    ensures Drive(local, row, g, id, now).ok && !Settled(local) ==>
              && Drive(local, row, g, id, now).row.currentState == RECONCILED
              && |Drive(local, row, g, id, now).rows| == 4 - Rank(local)
              && Drive(local, row, g, id, now).row.finalReconciledAt == Some(now)
    decreases 4 - Rank(local)
  {
    var w := WorkerWrite(local, g, id);
    if w.None? || !Allowed(row.currentState, w.value.toState) {
    } else {
      DriveSucceedsIff(w.value.toState, Transit(row, w.value.toState, w.value.metadata, now).value.row, g, id, now);
    }
  }

  /** Alone, a worker takes every row that has not failed to RECONCILED. */
  lemma DriveAloneReconciles(row: Transaction, g: GatewayProvider, id: string, now: Time)
    ensures var driven := Drive(row.currentState, row, g, id, now);
            && driven.ok
            && driven.row.currentState == (if row.currentState == FAILED then FAILED else RECONCILED)
            && (row.currentState == FAILED ==> driven.row == row)
  {
    DriveSucceedsIff(row.currentState, row, g, id, now);
  }

  /** Driving again changes nothing. */
  lemma DriveIsIdempotent(row: Transaction, g: GatewayProvider, id: string, now: Time,
                          g': GatewayProvider, id': string, later: Time)
    ensures var driven := Drive(row.currentState, row, g, id, now).row;
            Drive(driven.currentState, driven, g', id', later) == Driven(driven, [], true)
  {
    DriveAloneReconciles(row, g, id, now);
  }

  /** The gateway's transaction id of a paid row is never overwritten, and a row that gets
      paid here carries the webhook's. */
  lemma {:induction false} DriveKeepsReceipt(
      local: TransactionState, row: Transaction, g: GatewayProvider, id: string, now: Time)
    ensures var driven := Drive(local, row, g, id, now).row;
            && (Paid(row.currentState) ==> driven.gatewayTxnId == row.gatewayTxnId)
            && (!Paid(row.currentState) && Paid(driven.currentState) ==> driven.gatewayTxnId == Some(id))
            && driven.attemptCount <= row.attemptCount + 1
    decreases 4 - Rank(local)
  {
    var w := WorkerWrite(local, g, id);
    if w.None? || !Allowed(row.currentState, w.value.toState) {
    } else {
      DriveKeepsReceipt(w.value.toState, Transit(row, w.value.toState, w.value.metadata, now).value.row, g, id, now);
    }
  }

  /** The reason a webhook gives for a transition it writes from local state `local`. */
  predicate ToldByWebhook(l: AuditLog, local: TransactionState) {
    match l.toState
    case ROUTED =>
      || (local == INITIATED && l.reason == Some(WebhookRouting))
      || (local == RETRY_PENDING && l.reason == Some(WebhookRoutingAfterRetry))
    case PROCESSING => l.reason == Some(WebhookProcessing)
    case SUCCESS => l.reason == Some(WebhookSuccess)
    case RECONCILED => l.reason == Some(WebhookCompleted)
    case _ => false
  }

  lemma ToldEarlier(l: AuditLog, local: TransactionState, next: TransactionState)
    requires ToldByWebhook(l, next) && next != INITIATED && next != RETRY_PENDING
    ensures ToldByWebhook(l, local)
  {
  }

  lemma WorkerWriteNames(local: TransactionState, row: Transaction, g: GatewayProvider, id: string, now: Time)
    requires WorkerWrite(local, g, id).Some?
    requires Allowed(row.currentState, WorkerWrite(local, g, id).value.toState)
    ensures var w := WorkerWrite(local, g, id).value;
            var written := Transit(row, w.toState, w.metadata, now).value;
            && written.row.id == row.id && written.row.selectedGateway == Some(g)
            && written.log.gateway == Some(g) && written.log.transactionId == row.id
            && ToldByWebhook(written.log, local)
            && w.toState != INITIATED && w.toState != RETRY_PENDING
  {
  }

  /** Every audit row that driving writes is the row's own and names the webhook's gateway, and
      so does the row itself once one is written; otherwise the row is untouched. */
  lemma {:induction false} DriveNamesTheGateway(
      local: TransactionState, row: Transaction, g: GatewayProvider, id: string, now: Time)
    ensures var driven := Drive(local, row, g, id, now);
            && (forall l <- driven.rows ::
                  l.gateway == Some(g) && l.transactionId == row.id && ToldByWebhook(l, local))
            && (driven.rows != [] ==> driven.row.selectedGateway == Some(g))
            && (driven.rows == [] ==> driven.row == row)
    decreases 4 - Rank(local)
  {
    hide ToldByWebhook;
    var w := WorkerWrite(local, g, id);
    if w.None? || !Allowed(row.currentState, w.value.toState) {
    } else {
      var written := Transit(row, w.value.toState, w.value.metadata, now).value;
      var rest := Drive(w.value.toState, written.row, g, id, now);
      WorkerWriteNames(local, row, g, id, now);
      DriveNamesTheGateway(w.value.toState, written.row, g, id, now);
      assert Drive(local, row, g, id, now).rows == [written.log] + rest.rows;
      forall l | l in rest.rows
        ensures ToldByWebhook(l, local)
      {
        ToldEarlier(l, local, w.value.toState);
      }
    }
  }

  lemma {:induction false} DriveKeepsOrder(
      local: TransactionState, row: Transaction, g: GatewayProvider, id: string, now: Time)
    ensures SameOrder(row, Drive(local, row, g, id, now).row)
    decreases 4 - Rank(local)
  {
    var w := WorkerWrite(local, g, id);
    if w.None? || !Allowed(row.currentState, w.value.toState) {
    } else {
      DriveKeepsOrder(w.value.toState, Transit(row, w.value.toState, w.value.metadata, now).value.row, g, id, now);
    }
  }

  /** All audit rows added since `before` are those of this row and name gateway `g`, and if
      there are any the row names it too. */
  predicate NamedBy(g: GatewayProvider, before: seq<AuditLog>, log: seq<AuditLog>, row: Transaction) {
    && before <= log
    && (forall l <- log[|before|..] :: l.gateway == Some(g) && l.transactionId == row.id)
    && (log != before ==> row.selectedGateway == Some(g))
  }

  lemma DriveIsNamed(local: TransactionState, row: Transaction, g: GatewayProvider, id: string, now: Time,
                     log: seq<AuditLog>)
    ensures var driven := Drive(local, row, g, id, now);
            NamedBy(g, log, log + driven.rows, driven.row)
  {
    hide Drive, ToldByWebhook;
    var driven := Drive(local, row, g, id, now);
    DriveNamesTheGateway(local, row, g, id, now);
    DriveKeepsOrder(local, row, g, id, now);
    assert (log + driven.rows)[|log|..] == driven.rows;
    assert driven.rows == [] ==> log + driven.rows == log;
  }

  /** From here on, with the row and the audit log as they are, the rest of the driving
      completes `whole`, which began when the log was `log0`. */
  predicate OnCourse(row: Transaction, log: seq<AuditLog>, state: TransactionState, g: GatewayProvider, id: string,
                     now: Time, whole: Driven, log0: seq<AuditLog>)
  {
    var rest := Drive(state, row, g, id, now);
    rest.row == whole.row && rest.ok == whole.ok && log + rest.rows == log0 + whole.rows
  }

  lemma CourseStarts(row: Transaction, log: seq<AuditLog>, state: TransactionState, g: GatewayProvider, id: string,
                     now: Time)
    ensures OnCourse(row, log, state, g, id, now, Drive(state, row, g, id, now), log)
  {
  }

  lemma CourseStep(row: Transaction, log: seq<AuditLog>, state: TransactionState, g: GatewayProvider, id: string,
                   now: Time, whole: Driven, log0: seq<AuditLog>)
    requires OnCourse(row, log, state, g, id, now, whole, log0) && WorkerWrite(state, g, id).Some?
    ensures var w := WorkerWrite(state, g, id).value;
            match Transit(row, w.toState, w.metadata, now)
            case Ok(written) => OnCourse(written.row, log + [written.log], w.toState, g, id, now, whole, log0)
            case Err(_) => !whole.ok && row == whole.row && log == log0 + whole.rows
  {
    hide Drive, WorkerWrite;
    DriveGoesOn(state, row, g, id, now);
  }

  lemma CourseEnds(row: Transaction, log: seq<AuditLog>, state: TransactionState, g: GatewayProvider, id: string,
                   now: Time, whole: Driven, log0: seq<AuditLog>)
    requires OnCourse(row, log, state, g, id, now, whole, log0) && Settled(state)
    ensures whole.ok && row == whole.row && log == log0 + whole.rows
  {
  }

  // ---------- The worker ----------

  datatype ProcessOutcome = Skipped | NothingToDo | Reconciled(txn: TxnId)

  /** `payload.idempotencyKey || '___none___'` */
  function LookupKey(payloadKey: Option<string>): string {
    if payloadKey.Some? && payloadKey.value != "" then payloadKey.value else "___none___"
  }

  predicate Matches(row: Transaction, gatewayTxnId: string, key: string) {
    row.gatewayTxnId == Some(gatewayTxnId) || row.idempotencyKey == key
  }

  /** A row is found by the gateway's id, by the key the payload names, or, if it names none,
      by the stand-in. */
  lemma MatchesByIdOrKey(row: Transaction, id: string, payloadKey: Option<string>)
    ensures Matches(row, id, LookupKey(payloadKey)) <==>
              || row.gatewayTxnId == Some(id)
              || (payloadKey == Some(row.idempotencyKey) && row.idempotencyKey != "")
              || ((payloadKey == None || payloadKey == Some("")) && row.idempotencyKey == "___none___")
  {
  }

  /** `after` is `events` with exactly the given records marked processed. */
  predicate Marked(events: map<RecordId, WebhookEvent>, after: map<RecordId, WebhookEvent>, records: seq<RecordId>) {
    && after.Keys == events.Keys
    && forall r :: r in events ==> after[r] == events[r].(processed := events[r].processed || r in records)
  }

  function MarkOne(events: map<RecordId, WebhookEvent>, r: RecordId): map<RecordId, WebhookEvent> {
    if r in events then events[r := events[r].(processed := true)] else events
  }

  lemma NoneMarked(events: map<RecordId, WebhookEvent>)
    ensures Marked(events, events, [])
  {
  }

  lemma MarkedOneMore(events: map<RecordId, WebhookEvent>, after: map<RecordId, WebhookEvent>,
                      records: seq<RecordId>, r: RecordId)
    requires Marked(events, after, records)
    ensures Marked(events, MarkOne(after, r), records + [r])
  {
  }

  // ---------- What polling has settled ----------

  /** Some row that the event matches is settled. */
  predicate Reached(rows: map<TxnId, Transaction>, e: WebhookEvent) {
    && e.gatewayTxnId.Some?
    && exists t :: t in rows && Matches(rows[t], e.gatewayTxnId.value, LookupKey(e.payloadKey)) &&
                   Settled(rows[t].currentState)
  }

  /** Some row has the key the event is looked up by, or is paid and carries its id: it will
      still match later. */
  predicate Findable(rows: map<TxnId, Transaction>, e: WebhookEvent) {
    && e.gatewayTxnId.Some?
    && exists t :: t in rows && (rows[t].idempotencyKey == LookupKey(e.payloadKey) ||
                                 (Paid(rows[t].currentState) && rows[t].gatewayTxnId == e.gatewayTxnId))
  }

  /** One row, at most, has been driven. */
  ghost predicate DroveOne(rows: map<TxnId, Transaction>, after: map<TxnId, Transaction>) {
    || after == rows
    || exists t, g, id, now: Time :: t in rows &&
         after == rows[t := Drive(rows[t].currentState, rows[t], g, id, now).row]
  }

  lemma DrivingKeepsFindable(rows: map<TxnId, Transaction>, after: map<TxnId, Transaction>, e: WebhookEvent)
    requires DroveOne(rows, after) && Findable(rows, e)
    ensures Findable(after, e)
  {
    hide Drive, LookupKey;
    if after != rows {
      var t, g, id, now :|
        t in rows && after == rows[t := Drive(rows[t].currentState, rows[t], g, id, now).row];
      var u :| u in rows && (rows[u].idempotencyKey == LookupKey(e.payloadKey) ||
                             (Paid(rows[u].currentState) && rows[u].gatewayTxnId == e.gatewayTxnId));
      DriveKeepsReceipt(rows[t].currentState, rows[t], g, id, now);
      DriveKeepsOrder(rows[t].currentState, rows[t], g, id, now);
      DriveAloneReconciles(rows[t], g, id, now);
      assert u in after;
    }
  }

  lemma DrivingKeepsReached(rows: map<TxnId, Transaction>, after: map<TxnId, Transaction>, e: WebhookEvent)
    requires DroveOne(rows, after) && Reached(rows, e)
    ensures Reached(after, e)
  {
    hide Drive, LookupKey, Matches;
    if after != rows {
      var t, g, id, now :|
        t in rows && after == rows[t := Drive(rows[t].currentState, rows[t], g, id, now).row];
      var u :| u in rows && Matches(rows[u], e.gatewayTxnId.value, LookupKey(e.payloadKey)) &&
               Settled(rows[u].currentState);
      SettledIsLeft(rows[t], g, id, now);
      assert u in after && after[u] == rows[u];
    }
  }

  lemma SettledIsLeft(row: Transaction, g: GatewayProvider, id: string, now: Time)
    ensures Settled(row.currentState) ==> Drive(row.currentState, row, g, id, now).row == row
  {
  }

  /** The event just processed has been reached, if it was findable. */
  lemma DrivenIsReached(rows: map<TxnId, Transaction>, after: map<TxnId, Transaction>, t: TxnId, e: WebhookEvent,
                        now: Time)
    requires t in rows && e.gatewayTxnId.Some?
    requires Matches(rows[t], e.gatewayTxnId.value, LookupKey(e.payloadKey))
    requires after == rows[t := Drive(rows[t].currentState, rows[t], e.gateway, e.gatewayTxnId.value, now).row]
    ensures Reached(after, e)
  {
    hide Drive, LookupKey;
    var id := e.gatewayTxnId.value;
    DriveAloneReconciles(rows[t], e.gateway, id, now);
    DriveKeepsReceipt(rows[t].currentState, rows[t], e.gateway, id, now);
    DriveKeepsOrder(rows[t].currentState, rows[t], e.gateway, id, now);
    assert t in after && Matches(after[t], id, LookupKey(e.payloadKey));
  }

  /** Of the events taken, every one that was waiting to be processed and findable has been
      reached. */
  predicate AllReached(events: map<RecordId, WebhookEvent>, start: map<TxnId, Transaction>,
                       rows: map<TxnId, Transaction>, taken: seq<RecordId>)
  {
    forall r <- taken :: r in events && !events[r].processed && Findable(start, events[r]) ==> Reached(rows, events[r])
  }

  ghost predicate KeepsFindable(start: map<TxnId, Transaction>, rows: map<TxnId, Transaction>) {
    forall e: WebhookEvent :: Findable(start, e) ==> Findable(rows, e)
  }

  lemma NothingReached(events: map<RecordId, WebhookEvent>, rows: map<TxnId, Transaction>)
    ensures KeepsFindable(rows, rows) && AllReached(events, rows, rows, [])
  {
  }

  lemma NobodyDriven(rows: map<TxnId, Transaction>)
    ensures DroveOne(rows, rows)
  {
  }

  /** What processing an event that was waiting does to the rows, and that it reaches it. */
  lemma ProcessingReaches(rows: map<TxnId, Transaction>, after: map<TxnId, Transaction>, e: WebhookEvent,
                          outcome: ProcessOutcome, now: Time)
    requires e.gatewayTxnId.Some? && !outcome.Reconciled? ==>
               forall t :: t in rows ==> !Matches(rows[t], e.gatewayTxnId.value, LookupKey(e.payloadKey))
    requires !outcome.Reconciled? ==> after == rows
    requires outcome.Reconciled? ==>
               && e.gatewayTxnId.Some? && outcome.txn in rows
               && Matches(rows[outcome.txn], e.gatewayTxnId.value, LookupKey(e.payloadKey))
               && var row := rows[outcome.txn];
                  after ==
                  rows[outcome.txn := Drive(row.currentState, row, e.gateway, e.gatewayTxnId.value, now).row]
    ensures DroveOne(rows, after) && (Findable(rows, e) ==> Reached(after, e))
  {
    hide Drive, LookupKey;
    if outcome.Reconciled? {
      DrivenIsReached(rows, after, outcome.txn, e, now);
    }
  }

  lemma OneMoreReached(events: map<RecordId, WebhookEvent>, marked: map<RecordId, WebhookEvent>,
                       start: map<TxnId, Transaction>, rows: map<TxnId, Transaction>,
                       after: map<TxnId, Transaction>, taken: seq<RecordId>, r: RecordId)
    requires Marked(events, marked, taken) && KeepsFindable(start, rows) && AllReached(events, start, rows, taken)
    requires DroveOne(rows, after)
    requires r in marked && !marked[r].processed && Findable(rows, marked[r]) ==> Reached(after, marked[r])
    ensures KeepsFindable(start, after) && AllReached(events, start, after, taken + [r])
  {
    hide DroveOne, Findable, Reached;
    forall e: WebhookEvent | Findable(start, e)
      ensures Findable(after, e)
    {
      DrivingKeepsFindable(rows, after, e);
    }
    forall q | q in taken + [r] && q in events && !events[q].processed && Findable(start, events[q])
      ensures Reached(after, events[q])
    {
      if q in taken {
        DrivingKeepsReached(rows, after, events[q]);
      } else {
        assert marked[q] == events[q];
      }
    }
  }

  class ReconciliationWorkerService {
    const store: PaymentStore
    const webhooks: WebhooksService

    constructor (store: PaymentStore, webhooks: WebhooksService)
      ensures this.store == store && this.webhooks == webhooks
    {
      this.store, this.webhooks := store, webhooks;
    }

    /** `txn` is the row as it was read; the stored one may have moved on since. */
    method DriveToReconciled(txn: Transaction, gateway: GatewayProvider, gatewayTxnId: string, now: Time)
      returns (error: Option<TransitionError>)
      requires txn.id in store.transactions && store.transactions[txn.id].id == txn.id
      modifies store
      ensures var driven := Drive(txn.currentState, old(store.transactions[txn.id]), gateway, gatewayTxnId, now);
              && (error.None? <==> driven.ok)
              && store.transactions == old(store.transactions)[txn.id := driven.row]
              && store.auditLog == old(store.auditLog) + driven.rows
      ensures NamedBy(gateway, old(store.auditLog), store.auditLog, store.transactions[txn.id])
    {
      hide Drive, OnCourse, WorkerWrite, NamedBy;
      var state := txn.currentState;
      var currentId := txn.id;
      ghost var rows0, log0 := store.transactions, store.auditLog;
      ghost var whole := Drive(state, rows0[currentId], gateway, gatewayTxnId, now);
      CourseStarts(rows0[currentId], log0, state, gateway, gatewayTxnId, now);
      DriveIsNamed(state, rows0[currentId], gateway, gatewayTxnId, now, log0);
      error := None;
      if state == RECONCILED {
        CourseEnds(rows0[currentId], log0, state, gateway, gatewayTxnId, now, whole, log0);
        return;
      }
      if state == INITIATED {
        state, error := Advance(currentId, state, gateway, gatewayTxnId, now, whole, log0, rows0);
        if error.Some? {
          return;
        }
      }
      if state == RETRY_PENDING {
        state, error := Advance(currentId, state, gateway, gatewayTxnId, now, whole, log0, rows0);
        if error.Some? {
          return;
        }
      }
      if state == ROUTED {
        state, error := Advance(currentId, state, gateway, gatewayTxnId, now, whole, log0, rows0);
        if error.Some? {
          return;
        }
      }
      if state == PROCESSING {
        state, error := Advance(currentId, state, gateway, gatewayTxnId, now, whole, log0, rows0);
        if error.Some? {
          return;
        }
      }
      if state == SUCCESS {
        state, error := Advance(currentId, state, gateway, gatewayTxnId, now, whole, log0, rows0);
        if error.Some? {
          return;
        }
      }
      CourseEnds(store.transactions[currentId], store.auditLog, state, gateway, gatewayTxnId, now, whole, log0);
    }

    /** One of the five `transition` calls. */
    method Advance(id: TxnId, state: TransactionState, gateway: GatewayProvider, gatewayTxnId: string, now: Time,
                   ghost whole: Driven, ghost log0: seq<AuditLog>, ghost rows0: map<TxnId, Transaction>)
      returns (next: TransactionState, error: Option<TransitionError>)
      requires id in store.transactions && store.transactions[id].id == id
      requires store.transactions == rows0[id := store.transactions[id]]
      requires OnCourse(store.transactions[id], store.auditLog, state, gateway, gatewayTxnId, now, whole, log0)
      requires !Settled(state)
      modifies store
      ensures id in store.transactions && store.transactions[id].id == id
      ensures store.transactions == rows0[id := store.transactions[id]]
      ensures error.None? ==>
                && Rank(next) == Rank(state) + 1 && next != FAILED
                && OnCourse(store.transactions[id], store.auditLog, next, gateway, gatewayTxnId, now, whole, log0)
      ensures error.Some? ==>
                !whole.ok && store.transactions[id] == whole.row && store.auditLog == log0 + whole.rows
    {
      hide Drive, OnCourse;
      CourseStep(store.transactions[id], store.auditLog, state, gateway, gatewayTxnId, now, whole, log0);
      var w := WorkerWrite(state, gateway, gatewayTxnId).value;
      var updated := store.Transition(id, w.toState, w.metadata, now);
      match updated
      case Ok(row) => return row.currentState, None;
      case Err(e) => return state, Some(e);
    }

    /** `processEvent`, alone: the event is marked processed, and if it has an id and matches a
        row, that row has been driven and is settled. */
    method ProcessEvent(recordId: RecordId, now: Time) returns (outcome: ProcessOutcome)
      requires UniqueKeys(store.transactions)
      modifies store, webhooks
      ensures webhooks.events == MarkOne(old(webhooks.events), recordId)
      ensures outcome == Skipped <==>
                recordId !in old(webhooks.events) || old(webhooks.events[recordId]).processed
      ensures outcome == Skipped ==> store.State() == old(store.State())
      ensures UniqueKeys(store.transactions) && old(store.auditLog) <= store.auditLog
      ensures recordId in old(webhooks.events) && !old(webhooks.events[recordId]).processed ==>
                var e := old(webhooks.events[recordId]);
                outcome.Reconciled? <==>
                  e.gatewayTxnId.Some? &&
                  exists t ::
                    && t in old(store.transactions)
                    && var row := old(store.transactions)[t];
                       || row.gatewayTxnId == e.gatewayTxnId
                       || (e.payloadKey == Some(row.idempotencyKey) && row.idempotencyKey != "")
                       || ((e.payloadKey == None || e.payloadKey == Some("")) && row.idempotencyKey == "___none___")
      ensures forall l <- store.auditLog[|old(store.auditLog)|..] ::
                && recordId in old(webhooks.events) && l.gateway == Some(old(webhooks.events[recordId]).gateway)
                && outcome == Reconciled(l.transactionId)
      ensures outcome.NothingToDo? ==>
                && store.State() == old(store.State())
                && var e := old(webhooks.events[recordId]);
                   e.gatewayTxnId.Some? ==>
                     forall t :: t in store.transactions ==>
                       !Matches(store.transactions[t], e.gatewayTxnId.value, LookupKey(e.payloadKey))
      ensures outcome.Reconciled? ==>
                && old(webhooks.events[recordId]).gatewayTxnId.Some?
                && outcome.txn in old(store.transactions)
                && var e := old(webhooks.events[recordId]);
                   var before := old(store.transactions)[outcome.txn];
                   && Matches(before, e.gatewayTxnId.value, LookupKey(e.payloadKey))
                   && var driven := Drive(before.currentState, before, e.gateway, e.gatewayTxnId.value, now);
                      && store.transactions == old(store.transactions)[outcome.txn := driven.row]
                      && store.auditLog == old(store.auditLog) + driven.rows
                      && Settled(driven.row.currentState)
    {
      if recordId !in webhooks.events {
        return Skipped;
      }
      var event := webhooks.events[recordId];
      if event.processed {
        return Skipped;
      }
      if event.gatewayTxnId.None? {
        webhooks.events := webhooks.events[recordId := event.(processed := true)];
        return NothingToDo;
      }
      var gatewayTxnId, key := event.gatewayTxnId.value, LookupKey(event.payloadKey);
      forall t | t in store.transactions {
        MatchesByIdOrKey(store.transactions[t], gatewayTxnId, event.payloadKey);
      }
      if t :| t in store.transactions && Matches(store.transactions[t], gatewayTxnId, key) {
        var txn := store.transactions[t];
        DriveAloneReconciles(txn, event.gateway, gatewayTxnId, now);
        DriveKeepsOrder(txn.currentState, txn, event.gateway, gatewayTxnId, now);
        var error := DriveToReconciled(txn, event.gateway, gatewayTxnId, now);
        assert error.None?;
        webhooks.events := webhooks.events[recordId := event.(processed := true)];
        return Reconciled(t);
      } else {
        webhooks.events := webhooks.events[recordId := event.(processed := true)];
        return NothingToDo;
      }
    }

    /** `pollQueue`, alone, for as many turns as the worker stays active; each turn asks anew
        for the client of the mode Redis is in. What it takes is processed, nothing else
        is, and a turn that finds nothing or throws changes nothing. */
    method PollQueue(turns: nat, isMockMode: nat -> bool, up: nat -> bool, now: nat -> Time)
      returns (ghost popped: seq<RecordId>)
      requires UniqueKeys(store.transactions)
      modifies store, webhooks, webhooks.queueService
      ensures popped == TakenIn(old(webhooks.queueService.State()), isMockMode, up, turns)
      ensures webhooks.queueService.State() == AfterPops(old(webhooks.queueService.State()), isMockMode, up, turns)
      ensures Marked(old(webhooks.events), webhooks.events, popped)
      ensures AllReached(old(webhooks.events), old(store.transactions), store.transactions, popped)
      ensures UniqueKeys(store.transactions) && old(store.auditLog) <= store.auditLog
    {
      hide Drive, Marked, MarkOne, UniqueKeys, Matches, LookupKey, Waiting, AfterPop, Reached, Findable, DroveOne,
           KeepsFindable, AllReached;
      ghost var events0, queue0 := webhooks.events, webhooks.queueService.State();
      ghost var start := store.transactions;
      NothingReached(events0, start);
      NoneMarked(events0);
      popped := [];
      var turn := 0;
      while turn < turns
        invariant turn <= turns
        invariant popped == TakenIn(queue0, isMockMode, up, turn)
        invariant webhooks.queueService.State() == AfterPops(queue0, isMockMode, up, turn)
        invariant Marked(events0, webhooks.events, popped)
        invariant KeepsFindable(start, store.transactions)
        invariant AllReached(events0, start, store.transactions, popped)
        invariant UniqueKeys(store.transactions) && old(store.auditLog) <= store.auditLog
      {
        var result, failed := webhooks.queueService.Pop(isMockMode(turn), up(turn));
        turn := turn + 1;
        if failed || result.None? {
          continue;
        }
        MarkedOneMore(events0, webhooks.events, popped, result.value);
        ghost var marked, rows := webhooks.events, store.transactions;
        var outcome := ProcessEvent(result.value, now(turn - 1));
        if outcome != Skipped {
          ProcessingReaches(rows, store.transactions, marked[result.value], outcome, now(turn - 1));
        } else {
          NobodyDriven(rows);
        }
        OneMoreReached(events0, marked, start, rows, store.transactions, popped, result.value);
        popped := popped + [result.value];
      }
    }
  }
}
