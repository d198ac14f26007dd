/** The payment tables and `StateMachineService.transition` on them. Each method is one
    database transaction. */
module StateMachine {
  import opened Lifecycle

  datatype Tables = Tables(transactions: map<TxnId, Transaction>, auditLog: seq<AuditLog>)

  predicate HasKey(transactions: map<TxnId, Transaction>, key: string) {
    exists t :: t in transactions && transactions[t].idempotencyKey == key
  }

  predicate UniqueKeys(transactions: map<TxnId, Transaction>) {
    && (forall t :: t in transactions ==> transactions[t].id == t)
    && (forall t, u ::
          (t in transactions && u in transactions && transactions[t].idempotencyKey == transactions[u].idempotencyKey)
          ==> t == u)
  }


  class PaymentStore {
    var transactions: map<TxnId, Transaction>
    var auditLog: seq<AuditLog>

    function State(): Tables
      reads this
    {
      Tables(transactions, auditLog)
    }

    constructor ()
      ensures State() == Tables(map[], [])
    {
      transactions, auditLog := map[], [];
    }

    method FindByKey(key: string) returns (found: Option<Transaction>)
      ensures found.Some? <==> HasKey(transactions, key)
      ensures found.Some? ==> found.value.idempotencyKey == key
      ensures found.Some? ==> exists t :: t in transactions && transactions[t] == found.value
    {
      if t :| t in transactions && transactions[t].idempotencyKey == key {
        found := Some(transactions[t]);
      } else {
        found := None;
      }
    }

    /** The unique index refuses a second row with one key. */
    method Insert(row: Transaction) returns (ok: bool)
      requires row.id !in transactions
      modifies this`transactions
      ensures ok <==> !HasKey(old(transactions), row.idempotencyKey)
      ensures transactions == if ok then old(transactions)[row.id := row] else old(transactions)
    {
      if t :| t in transactions && transactions[t].idempotencyKey == row.idempotencyKey {
        ok := false;
      } else {
        transactions := transactions[row.id := row];
        ok := true;
      }
    }

    method AppendAudit(log: AuditLog)
      modifies this`auditLog
      ensures auditLog == old(auditLog) + [log]
    {
      auditLog := auditLog + [log];
    }

    /** Locks the row, checks the allow-list, changes the row and appends its audit row;
        a refusal leaves both tables as they were. */
    method Transition(id: TxnId, toState: TransactionState, metadata: Metadata, now: Time)
      returns (r: Result<Transaction, TransitionError>)
      modifies this
      ensures id !in old(transactions) ==> r == Err(NotFound(id))
      ensures id in old(transactions) ==>
                match Transit(old(transactions[id]), toState, metadata, now)
                case Err(e) => r == Err(e)
                case Ok(w) =>
                  && r == Ok(w.row)
                  && transactions == old(transactions)[id := w.row]
                  && auditLog == old(auditLog) + [w.log]
      ensures r.Err? ==> State() == old(State())
    {
      if id !in transactions {
        return Err(NotFound(id));
      }
      var transaction := transactions[id];
      var fromState := transaction.currentState;
      if toState !in ValidTransitions(fromState) {
        return Err(InvalidTransition(fromState, toState));
      }
      transaction := transaction.(currentState := toState);
      if metadata.gateway.Put? {
        transaction := transaction.(selectedGateway := metadata.gateway.value);
      }
      if metadata.gatewayTxnId.Put? {
        transaction := transaction.(gatewayTxnId := metadata.gatewayTxnId.value);
      }
      if metadata.incrementAttempt {
        transaction := transaction.(attemptCount := transaction.attemptCount + 1);
      }
      if toState == RECONCILED {
        transaction := transaction.(finalReconciledAt := Some(now));
      }
      transactions := transactions[id := transaction];
      var gateway :=
        if metadata.gateway.Put? && metadata.gateway.value.Some? then metadata.gateway.value
        else transaction.selectedGateway;
      auditLog := auditLog + [AuditLog(transaction.id, Some(fromState), toState, gateway, metadata.reason)];
      return Ok(transaction);
    }
  }
}
