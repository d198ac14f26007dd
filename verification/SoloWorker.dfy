/** What `processEvent` does without interference is a run of the world, from every world in
    which the event's record waits in the queue. */
module SoloWorker {
  import opened Lifecycle
  import opened Writers
  import opened Ledger
  import opened Protocol
  import opened World
  import opened Matching
  import Reconciliation
  import SoloRun
  import Webhooks

  lemma TakeUp(base: World, record: RecordId, v: WorkerId) returns (w: World)
    requires record in base.queue && v !in base.pay.workers
    ensures WorldLeads(base, w) && v in w.pay.workers
    ensures w == base.(queue := base.queue - multiset{record},
                       pay := base.pay.(workers := base.pay.workers[v := w.pay.workers[v]]))
    ensures w.pay.workers[v] ==
            Worker(record,
                   if record !in base.events || base.events[record].processed then Finished
                   else match base.events[record].gatewayTxnId
                        case None => Mark(None)
                        case Some(id) => Lookup(base.events[record].gateway, id))
  {
    hide WorldLeads;
    LeadsNowhere(base);
    var popped := Then(base, base, Pop(v, record));
    w := Then(base, popped, LoadEvent(v));
    assert w.pay.workers == base.pay.workers[v := w.pay.workers[v]];
  }

  /** The drive of row `t` from the state it was found in, step by step. */
  lemma {:induction false} DriveInWorld(base: World, w: World, v: WorkerId, now: Time) returns (after: World)
    requires WorldLeads(base, w) && v in w.pay.workers && w.pay.workers[v].pc.Drive?
    requires w.pay.workers[v].pc.txn in w.pay.ledgers
    ensures WorldLeads(base, after) && after == w.(pay := after.pay)
    ensures var pc := w.pay.workers[v].pc;
            var L := w.pay.ledgers[pc.txn];
            var driven := Reconciliation.Drive(pc.local, L.row, pc.gateway, pc.gatewayTxnId, now);
            && pc.txn in after.pay.ledgers
            && after.pay.ledgers == w.pay.ledgers[pc.txn := after.pay.ledgers[pc.txn]]
            && after.pay.ledgers[pc.txn].row == driven.row
            && after.pay.ledgers[pc.txn].audit == L.audit + driven.rows
            && after.pay.workers ==
               w.pay.workers[v := w.pay.workers[v].(pc := if driven.ok then Mark(Some(pc.txn)) else WorkerThrew)]
            && after.pay.creators == w.pay.creators && after.pay.charges == w.pay.charges
            && after.pay.published == w.pay.published
    decreases 4 - Rank(w.pay.workers[v].pc.local)
  {
    hide WorldLeads, Transit, Allowed, Do, WorkerWrite, Reconciliation.Drive;
    var pc := w.pay.workers[v].pc;
    var write := WorkerWrite(pc.local, pc.gateway, pc.gatewayTxnId);
    after := Then(base, w, Pay(Push(v, now)));
    SoloRun.PushMeans(w.pay, v, now);
    SoloRun.TransitIsAllowed(w.pay.ledgers[pc.txn].row, write, now);
    Reconciliation.DrivingClimbs(pc.local, pc.gateway, pc.gatewayTxnId);
    Reconciliation.DriveGoesOn(pc.local, w.pay.ledgers[pc.txn].row, pc.gateway, pc.gatewayTxnId, now);
    if write.None? || !Allowed(w.pay.ledgers[pc.txn].row.currentState, write.value.toState) {
    } else {
      after := DriveInWorld(base, after, v, now);
    }
  }

  /** The event is saved as processed. */
  lemma SaveInWorld(base: World, w: World, v: WorkerId) returns (after: World)
    requires WorldLeads(base, w) && v in w.pay.workers && w.pay.workers[v].pc.Mark?
    requires w.pay.workers[v].record in w.events
    ensures WorldLeads(base, after)
    ensures var record := w.pay.workers[v].record;
            && after.events == w.events[record := w.events[record].(processed := true)]
            && after.queue == w.queue && after.pay.ledgers == w.pay.ledgers
            && v in after.pay.workers && after.pay.workers[v].pc == Finished
            && after.matches == match w.pay.workers[v].pc.matched
                                case None => w.matches
                                case Some(t) => w.matches[record := t]
  {
    hide WorldLeads;
    after := Then(base, w, SaveProcessed(v));
  }

  /** The row, if any, that the event of a record may be matched to. */
  predicate MayMatch(w: World, record: RecordId, matched: Option<TxnId>)
    requires record in w.events
  {
    match matched
    case Some(t) => t in w.pay.ledgers && Concerns(w.events[record], w.pay.ledgers[t].row)
    case None => forall t :: t in w.pay.ledgers ==> !Concerns(w.events[record], w.pay.ledgers[t].row)
  }

  /** An event unknown or already processed is dropped. One without an id, or that concerns no
      row, is marked processed. Otherwise a row it concerns is driven and the event marked
      processed. Each time a run of the world does it. */
  lemma ProcessEventIsAWorldRun(base: World, record: RecordId, v: WorkerId, matched: Option<TxnId>, now: Time)
    returns (w: World)
    requires record in base.queue && v !in base.pay.workers
    requires record in base.events ==> MayMatch(base, record, matched)
    ensures WorldLeads(base, w) && w.queue == base.queue - multiset{record}
    ensures v in w.pay.workers && w.pay.workers[v].pc == Finished
    ensures if record !in base.events || base.events[record].processed then
              w.events == base.events && w.pay.ledgers == base.pay.ledgers
            else
              var e := base.events[record];
              && w.events == base.events[record := e.(processed := true)]
              && if e.gatewayTxnId.None? || matched.None? then w.pay.ledgers == base.pay.ledgers
                 else
                   var t, L := matched.value, base.pay.ledgers[matched.value];
                   var driven :=
                     Reconciliation.Drive(L.row.currentState, L.row, e.gateway, e.gatewayTxnId.value, now);
                   && t in w.pay.ledgers && w.pay.ledgers == base.pay.ledgers[t := w.pay.ledgers[t]]
                   && w.pay.ledgers[t].row == driven.row
                   && w.pay.ledgers[t].audit == L.audit + driven.rows
                   && w.matches == base.matches[record := t]
  {
    hide WorldLeads, Concerns, Reconciliation.Drive;
    w := TakeUp(base, record, v);
    if record !in base.events || base.events[record].processed {
    } else if base.events[record].gatewayTxnId.None? {
      w := SaveInWorld(base, w, v);
    } else {
      w := FindInWorld(base, w, v, matched);
      if matched.Some? {
        var row, e := base.pay.ledgers[matched.value].row, base.events[record];
        Reconciliation.DriveAloneReconciles(row, e.gateway, e.gatewayTxnId.value, now);
        w := DriveInWorld(base, w, v, now);
      }
      w := SaveInWorld(base, w, v);
    }
  }

  lemma FindInWorld(base: World, w: World, v: WorkerId, matched: Option<TxnId>) returns (after: World)
    requires WorldLeads(base, w) && v in w.pay.workers && w.pay.workers[v].pc.Lookup?
    requires w.pay.workers[v].record in w.events
    requires w.events[w.pay.workers[v].record].gatewayTxnId == Some(w.pay.workers[v].pc.gatewayTxnId)
    requires MayMatch(w, w.pay.workers[v].record, matched)
    ensures WorldLeads(base, after)
    ensures var run := w.pay.workers[v];
            var pc :=
              match matched
              case None => Mark(None)
              case Some(t) =>
                Drive(t, run.pc.gateway, run.pc.gatewayTxnId, w.pay.ledgers[t].row.currentState);
            after == w.(pay := w.pay.(workers := w.pay.workers[v := run.(pc := pc)]))
  {
    hide WorldLeads, Reconciliation.Matches, Reconciliation.LookupKey, Concerns;
    forall t | t in w.pay.ledgers {
      ConcernsIsMatches(w.events[w.pay.workers[v].record], w.pay.ledgers[t].row);
    }
    after := Then(base, w, Pay(AnswerLookup(v, matched)));
  }
}
