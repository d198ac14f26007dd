/** Where things come from, and what may still happen after a webhook has taken a row over:
    attempts and charge calls, charges of rows already paid, the origin of a gateway's
    transaction id. */
module Provenance {
  import opened Lifecycle
  import opened Writers
  import opened Ledger
  import opened Protocol
  import opened ProtocolInvariant
  import opened ProtocolTheorems

  // ---------- Attempts and charges ----------

  /** The PROCESSING rows of the owning run name the first gateways of the plan, in order,
      and the charge calls are those same gateways, at most one behind: every call has its
      row in the trail before it. */
  lemma EveryChargeWasRecorded(s: Sys, t: TxnId)
    requires Reachable(s) && t in s.ledgers
    ensures var L, charged := s.ledgers[t], ChargedFor(s.charges, t);
            var attempted := Attempted(Moves(L.audit));
            && Born(L).selectedGateway.Some?
            && charged <= attempted <= Plan(L)
            && |attempted| <= |charged| + 1
  {
    hide Reachable, Moves, Attempted, Count, WebhookRows;
    ReachableRow(s, t);
    var charged, plan := ChargedFor(s.charges, t), Plan(s.ledgers[t]);
    assert charged == plan[..|charged|];
  }

  // ---------- Charges after the hand-off ----------

  lemma {:induction false} SomeWebhookRow(moves: seq<AuditLog>)
    requires WebhookRows(moves) > 0
    ensures exists l <- moves :: FromWebhook(l.reason)
  {
    if |moves| == 1 {
    } else {
      var last := |moves| - 1;
      if !FromWebhook(moves[last].reason) {
        SomeWebhookRow(moves[..last]);
        var l :| l in moves[..last] && FromWebhook(l.reason);
        assert l in moves;
      }
    }
  }

  lemma WebhookRowsCount(moves: seq<AuditLog>)
    ensures WebhookRows(moves) > 0 <==> exists l <- moves :: FromWebhook(l.reason)
  {
    if WebhookRows(moves) == 0 {
      QuietTrail(moves);
    } else {
      SomeWebhookRow(moves);
    }
  }

  /** No webhook leaves a row FAILED. */
  lemma HandedOverIsNotFailed(L: Ledger, loop: Option<Loop>, charged: seq<GatewayProvider>)
    requires Sane(L, loop, charged) && exists l <- Moves(L.audit) :: FromWebhook(l.reason)
    ensures L.row.currentState != FAILED
  {
    hide Chronicle, Tally, Billed, Moves, Count, WebhookRows, Replay, Observed;
    LastVersionReplays(L);
    var moves := Moves(L.audit);
    var m :| 0 <= m < |moves| && FromWebhook(moves[m].reason);
    assert FromWebhook(moves[|moves| - 1].reason);
  }

  /** When a run is about to place a charge call, its row is PROCESSING, or a webhook has
      taken the row over and then it is paid already: the code does charge paid rows, in
      exactly this case. */
  lemma ChargeMeetsPaidRowIff(s: Sys, run: RunId)
    requires Reachable(s) && Enabled(s, PlaceCharge(run))
    ensures var L := s.ledgers[s.creators[run].pc.txn];
            && (Paid(L.row.currentState) <==> exists l <- Moves(L.audit) :: FromWebhook(l.reason))
            && (!Paid(L.row.currentState) ==> L.row.currentState == PROCESSING)
  {
    hide Reachable, Moves, WebhookRows, Sane;
    var t := s.creators[run].pc.txn;
    OwnerIsAtWork(s, run);
    LoopInStep(s, run, t);
    WebhookRowsCount(Moves(s.ledgers[t].audit));
    if exists l <- Moves(s.ledgers[t].audit) :: FromWebhook(l.reason) {
      ReachableRow(s, t);
      HandedOverIsNotFailed(s.ledgers[t], LoopOf(s.creators, s.ledgers[t].owner, t), ChargedFor(s.charges, t));
    }
  }

  lemma OwnerIsAtWork(s: Sys, run: RunId)
    requires Reachable(s) && run in s.creators && s.creators[run].pc.InLoop?
    ensures s.creators[run].pc.txn in s.ledgers && s.ledgers[s.creators[run].pc.txn].owner == run
  {
    hide Reachable, Sane;
    ReachableSatisfiesInv(s);
    assert CreatorFits(s.ledgers, run, s.creators[run]);
  }

  lemma {:induction false} NoRetriesLater(early: seq<AuditLog>, late: seq<AuditLog>)
    requires early <= late
    requires forall n :: |early| <= n < |late| ==> late[n].toState != RETRY_PENDING
    ensures Count(late, RETRY_PENDING) == Count(early, RETRY_PENDING)
  {
    if early == late {
    } else {
      NoRetriesLater(early, late[..|late| - 1]);
    }
  }

  /** Once a webhook row is in the trail, at most one more charge call is made for the row,
      however the run goes on. */
  lemma OneChargeAfterHandOff(states: seq<Sys>, actions: seq<Action>, i: nat, j: nat, t: TxnId)
    requires Run(states, actions) && i <= j < |states| && t in states[i].ledgers
    requires exists l <- Moves(states[i].ledgers[t].audit) :: FromWebhook(l.reason)
    ensures |ChargedFor(states[j].charges, t)| <= |ChargedFor(states[i].charges, t)| + 1
  {
    hide Moves, Count, Run, Chronicle, Receipt, Tally, InStep;
    NoCreatorRowAfterHandOff(states, actions, i, j, t);
    assert Reachable(states[i]) && Reachable(states[j]);
    ReachableRow(states[i], t);
    ReachableRow(states[j], t);
    var early, late := Moves(states[i].ledgers[t].audit), Moves(states[j].ledgers[t].audit);
    forall n | |early| <= n < |late|
      ensures late[n].toState != RETRY_PENDING
    {
      assert late[n] in late;
    }
    NoRetriesLater(early, late);
  }

  // ---------- Where a gateway's transaction id comes from ----------

  lemma SuccessComesFromAnswers(s: Sys, a: Action, run: RunId)
    requires Enabled(s, a) && run in Do(s, a).creators
    requires Do(s, a).creators[run].pc.InLoop? && Do(s, a).creators[run].pc.loop.stage.Succeed?
    ensures run in s.creators
    ensures var pc := Do(s, a).creators[run].pc;
            || s.creators[run].pc == pc
            || (a == AnswerCharge(run, Charged(pc.loop.stage.gatewayTxnId)) &&
                s.creators[run].pc == pc.(loop := pc.loop.(stage := Await)))
  {
    hide Moved, Allowed, KeyTaken, FindAnswers, CreatorWrite, WorkerWrite;
  }

  /** A run at its SUCCESS write holds the answer to a charge call it made for this row. */
  lemma {:induction false} SuccessWasAnswered(states: seq<Sys>, actions: seq<Action>, j: nat, run: RunId)
    returns (i: nat)
    requires Run(states, actions) && j < |states| && run in states[j].creators
    requires states[j].creators[run].pc.InLoop? && states[j].creators[run].pc.loop.stage.Succeed?
    ensures var pc := states[j].creators[run].pc;
            && i < j
            && actions[i] == AnswerCharge(run, Charged(pc.loop.stage.gatewayTxnId))
            && run in states[i].creators
            && states[i].creators[run].pc == pc.(loop := pc.loop.(stage := Await))
  {
    hide Do, Enabled;
    assert j > 0;
    SuccessComesFromAnswers(states[j - 1], actions[j - 1], run);
    if states[j - 1].creators[run].pc != states[j].creators[run].pc {
      i := j - 1;
    } else {
      i := SuccessWasAnswered(states, actions, j - 1, run);
    }
  }

  predicate Knows(pc: WorkerPc, gateway: GatewayProvider, gatewayTxnId: string) {
    (pc.Lookup? || pc.Drive?) && pc.gateway == gateway && pc.gatewayTxnId == gatewayTxnId
  }

  lemma IdsComeFromRecords(s: Sys, a: Action, w: WorkerId, gateway: GatewayProvider, id: string)
    requires Enabled(s, a) && w in Do(s, a).workers && Knows(Do(s, a).workers[w].pc, gateway, id)
    ensures w in s.workers
    ensures Knows(s.workers[w].pc, gateway, id) || a == AnswerLoad(w, Extracted(gateway, id))
  {
    hide Moved, Allowed, KeyTaken, FindAnswers, CreatorWrite, AfterWrite, AfterCall;
  }

  /** The id a worker works with was read from its event record. */
  lemma {:induction false} WorkerIdWasLoaded(
      states: seq<Sys>, actions: seq<Action>, j: nat, w: WorkerId, gateway: GatewayProvider, id: string)
    returns (i: nat)
    requires Run(states, actions) && j < |states| && w in states[j].workers
    requires Knows(states[j].workers[w].pc, gateway, id)
    ensures i < j && actions[i] == AnswerLoad(w, Extracted(gateway, id))
  {
    hide Do, Enabled, Knows;
    assert j > 0;
    IdsComeFromRecords(states[j - 1], actions[j - 1], w, gateway, id);
    if !Knows(states[j - 1].workers[w].pc, gateway, id) {
      i := j - 1;
    } else {
      i := WorkerIdWasLoaded(states, actions, j - 1, w, gateway, id);
    }
  }

  /** The run that owns row `t` writes SUCCESS with this id, for the gateway of the last
      charge call made for the row. */
  predicate PaidByItsRun(s: Sys, a: Action, t: TxnId, id: string) {
    && a.WriteState? && Enabled(s, a) && s.creators[a.run].pc.txn == t
    && s.creators[a.run].pc.loop.stage == Succeed(id)
    && var charged := ChargedFor(s.charges, t);
       charged != [] && s.creators[a.run].pc.loop.gateway == charged[|charged| - 1]
  }

  /** A worker that has matched row `t` writes SUCCESS with this id. */
  predicate PaidByWebhook(s: Sys, a: Action, t: TxnId, id: string) {
    && a.Push? && Enabled(s, a)
    && s.workers[a.worker].pc.txn == t && s.workers[a.worker].pc.gatewayTxnId == id
  }

  lemma UnpaidBefore(s: Sys, a: Action, t: TxnId)
    requires Reachable(s) && Enabled(s, a) && t in s.ledgers && t in Do(s, a).ledgers
    requires Do(s, a).ledgers[t].row.gatewayTxnId != s.ledgers[t].row.gatewayTxnId
    ensures s.ledgers[t].row.gatewayTxnId.None?
  {
    hide Reachable, Do, Enabled;
    var before, after := s.ledgers[t], Do(s, a).ledgers[t];
    NextIsReachable(s, a);
    OutcomeIsWrittenOnce(Do(s, a), t);
    StepGrows(s, a);
    assert Extends(before, after);
    assert History(after)[|History(before)| - 1] == before.row;
    assert before.row in History(after);
  }

  /** From its charge call on, the loop stands at the gateway charged last. */
  lemma LastChargeIsCurrent(s: Sys, run: RunId)
    requires Reachable(s) && run in s.creators && s.creators[run].pc.InLoop?
    requires CallMade(s.creators[run].pc.loop.stage)
    ensures var charged := ChargedFor(s.charges, s.creators[run].pc.txn);
            charged != [] && s.creators[run].pc.loop.gateway == charged[|charged| - 1]
  {
    hide Reachable, Chronicle, Receipt, Tally, Recorded, Count, WebhookRows, Moves;
    OwnerIsAtWork(s, run);
    ReachableRow(s, s.creators[run].pc.txn);
  }

  lemma OnlyTransitionsPay(s: Sys, a: Action, t: TxnId)
    requires Enabled(s, a) && t in Do(s, a).ledgers && !a.WriteState? && !a.Push?
    ensures if t in s.ledgers then Do(s, a).ledgers[t].row == s.ledgers[t].row
            else Do(s, a).ledgers[t].row.gatewayTxnId.None?
  {
  }

  lemma WritePays(s: Sys, run: RunId, now: Time, t: TxnId, id: string)
    requires Enabled(s, WriteState(run, now)) && t in Do(s, WriteState(run, now)).ledgers
    requires Do(s, WriteState(run, now)).ledgers[t].row.gatewayTxnId == Some(id)
    ensures t in s.ledgers
    ensures s.ledgers[t].row.gatewayTxnId != Some(id) ==>
              s.creators[run].pc.txn == t && s.creators[run].pc.loop.stage == Succeed(id)
  {
    hide Allowed;
  }

  lemma PushPays(s: Sys, w: WorkerId, now: Time, t: TxnId, id: string)
    requires Enabled(s, Push(w, now)) && t in Do(s, Push(w, now)).ledgers
    requires Do(s, Push(w, now)).ledgers[t].row.gatewayTxnId == Some(id)
    ensures t in s.ledgers
    ensures s.ledgers[t].row.gatewayTxnId != Some(id) ==>
              s.workers[w].pc.txn == t && s.workers[w].pc.gatewayTxnId == id
  {
    hide Allowed;
  }

  lemma StepPays(s: Sys, a: Action, t: TxnId, id: string)
    requires Reachable(s) && Enabled(s, a) && t in Do(s, a).ledgers
    requires Do(s, a).ledgers[t].row.gatewayTxnId == Some(id)
    requires t in s.ledgers ==> s.ledgers[t].row.gatewayTxnId != Some(id)
    ensures t in s.ledgers && s.ledgers[t].row.gatewayTxnId.None?
    ensures PaidByItsRun(s, a, t, id) || PaidByWebhook(s, a, t, id)
  {
    hide Reachable, Do, ChargedFor;
    match a
    case WriteState(run, now) =>
      WritePays(s, run, now, t, id);
      LastChargeIsCurrent(s, run);
      UnpaidBefore(s, a, t);
    case Push(w, now) =>
      PushPays(s, w, now, t, id);
      UnpaidBefore(s, a, t);
    case _ =>
      OnlyTransitionsPay(s, a, t);
  }

  /** The answer to a charge call for row `t`. */
  predicate AnswersFor(s: Sys, a: Action, t: TxnId, id: string) {
    a.AnswerCharge? && Enabled(s, a) && a.outcome == Charged(id) && s.creators[a.run].pc.txn == t
  }

  /** A paid row's `gatewayTxnId` was written once, at step `k`, either by the owning run,
      which got it at step `i` as the answer to the last charge call for this row, or by a
      worker that read it at step `i` from its webhook event. */
  lemma {:induction false} ReceiptHasAnOrigin(states: seq<Sys>, actions: seq<Action>, j: nat, t: TxnId, id: string)
    returns (i: nat, k: nat)
    requires Run(states, actions) && j < |states| && t in states[j].ledgers
    requires states[j].ledgers[t].row.gatewayTxnId == Some(id)
    ensures i < k < j && t in states[k].ledgers && states[k].ledgers[t].row.gatewayTxnId.None?
    ensures || (PaidByItsRun(states[k], actions[k], t, id) && AnswersFor(states[i], actions[i], t, id) &&
                actions[i].run == actions[k].run == states[k].ledgers[t].owner)
            || (PaidByWebhook(states[k], actions[k], t, id) &&
                exists g :: actions[i] == AnswerLoad(actions[k].worker, Extracted(g, id)))
  {
    hide Do, Reachable, ChargedFor;
    assert j > 0;
    k := j - 1;
    var s := states[k];
    assert Reachable(s) by {
      StateIsReachable(states, actions, k);
    }
    if t in s.ledgers && s.ledgers[t].row.gatewayTxnId == Some(id) {
      i, k := ReceiptHasAnOrigin(states, actions, k, t, id);
    } else {
      StepPays(s, actions[k], t, id);
      if actions[k].WriteState? {
        OwnerIsAtWork(s, actions[k].run);
        i := SuccessWasAnswered(states, actions, k, actions[k].run);
      } else {
        var pc := s.workers[actions[k].worker].pc;
        i := WorkerIdWasLoaded(states, actions, k, actions[k].worker, pc.gateway, id);
      }
    }
  }

  lemma StateIsReachable(states: seq<Sys>, actions: seq<Action>, i: nat)
    requires Run(states, actions) && i < |states|
    ensures Reachable(states[i])
  {
  }

  // ---------- Where a row and its audit rows come from ----------

  /** The row asks for what the run that inserted it was asked for. */
  predicate CarriesRequest(s: Sys, t: TxnId) {
    t in s.ledgers ==>
      && s.ledgers[t].owner in s.creators
      && var row, dto := s.ledgers[t].row, s.creators[s.ledgers[t].owner].dto;
         && row.idempotencyKey == dto.idempotencyKey && row.merchantId == dto.merchantId
         && row.amount == dto.amount && row.currency == dto.currency
  }

  lemma RequestsStay(s: Sys, a: Action, run: RunId)
    requires Enabled(s, a) && run in s.creators
    ensures run in Do(s, a).creators && Do(s, a).creators[run].dto == s.creators[run].dto
  {
    hide Moved, Allowed, KeyTaken, CreatorWrite, WorkerWrite;
  }

  lemma NewRowsAreInserted(s: Sys, a: Action, t: TxnId)
    requires Enabled(s, a) && t !in s.ledgers && t in Do(s, a).ledgers
    ensures a.InsertRow? && a.id == t && CarriesRequest(Do(s, a), t) && Do(s, a).ledgers[t].audit == []
  {
    hide Moved, Allowed, CreatorWrite, WorkerWrite;
  }

  /** In every run, whatever happens to a row, it keeps the key, merchant, amount and currency
      of the request for which it was inserted. */
  lemma {:induction false} RowsCarryTheRequest(states: seq<Sys>, actions: seq<Action>, i: nat, t: TxnId)
    requires Run(states, actions) && i < |states|
    ensures CarriesRequest(states[i], t)
  {
    hide Do, Enabled;
    if i == 0 {
    } else {
      RowsCarryTheRequest(states, actions, i - 1, t);
      var s, a := states[i - 1], actions[i - 1];
      if t in states[i].ledgers {
        if t in s.ledgers {
          StepGrows(s, a);
          assert Extends(s.ledgers[t], states[i].ledgers[t]);
          RequestsStay(s, a, s.ledgers[t].owner);
        } else {
          NewRowsAreInserted(s, a, t);
        }
      }
    }
  }

  /** One step adds at most one audit row of a transition to a trail: the owner's, for the
      gateway its loop is at, or that of a worker, for the gateway of its event. */
  predicate AddsOneRow(s: Sys, a: Action, t: TxnId)
    requires Enabled(s, a) && t in s.ledgers && t in Do(s, a).ledgers
  {
    var before, after := Moves(s.ledgers[t].audit), Moves(Do(s, a).ledgers[t].audit);
    || after == before
    || (&& |after| == |before| + 1 && after[..|before|] == before
        && var l := after[|before|];
           || (&& a.WriteState? && AtStage(s, a.run) && s.creators[a.run].pc.txn == t
               && !FromWebhook(l.reason) && l.gateway == Some(s.creators[a.run].pc.loop.gateway))
           || (&& a.Push? && a.worker in s.workers && s.workers[a.worker].pc.Drive?
               && s.workers[a.worker].pc.txn == t
               && FromWebhook(l.reason) && l.gateway == Some(s.workers[a.worker].pc.gateway)))
  }

  lemma RowsAreAddedOneByOne(s: Sys, a: Action, t: TxnId)
    requires Enabled(s, a) && t in s.ledgers
    ensures t in Do(s, a).ledgers && AddsOneRow(s, a, t)
  {
    hide Do, Enabled, AddsOneRow, Extends;
    StepGrows(s, a);
    match a
    case WriteState(run, now) => WriteAddsOneRow(s, run, now, t);
    case Push(w, now) => PushAddsOneRow(s, w, now, t);
    case LogCreation(run) => NoteAddsNone(s, run, t);
    case _ => OthersAddNone(s, a, t);
  }

  lemma WriteAddsOneRow(s: Sys, run: RunId, now: Time, t: TxnId)
    requires Enabled(s, WriteState(run, now)) && t in s.ledgers
    ensures AddsOneRow(s, WriteState(run, now), t)
  {
    hide Moves, Count, WebhookRows, Transit;
    var pc := s.creators[run].pc;
    var w := CreatorWrite(pc.loop.stage, pc.loop.gateway);
    if pc.txn == t && Allowed(s.ledgers[t].row.currentState, w.toState) {
      MovedParts(s.ledgers[t], w, now);
      MovedGateway(s.ledgers[t], w, now);
    }
  }

  lemma PushAddsOneRow(s: Sys, w: WorkerId, now: Time, t: TxnId)
    requires Enabled(s, Push(w, now)) && t in s.ledgers
    ensures AddsOneRow(s, Push(w, now), t)
  {
    hide Moves, Count, WebhookRows, Transit;
    var pc := s.workers[w].pc;
    var write := WorkerWrite(pc.local, pc.gateway, pc.gatewayTxnId);
    if pc.txn == t && write.Some? && Allowed(s.ledgers[t].row.currentState, write.value.toState) {
      MovedParts(s.ledgers[t], write.value, now);
      MovedGateway(s.ledgers[t], write.value, now);
    }
  }

  lemma NoteAddsNone(s: Sys, run: RunId, t: TxnId)
    requires Enabled(s, LogCreation(run)) && t in s.ledgers
    ensures AddsOneRow(s, LogCreation(run), t)
  {
    var pc := s.creators[run].pc;
    MovesOfAppend(s.ledgers[pc.txn].audit, CreatedLog(pc.txn, pc.loop.gateway));
  }

  lemma OthersAddNone(s: Sys, a: Action, t: TxnId)
    requires Enabled(s, a) && t in s.ledgers && !a.WriteState? && !a.Push? && !a.LogCreation?
    ensures t in Do(s, a).ledgers && AddsOneRow(s, a, t)
  {
    hide Moved, Allowed, CreatorWrite, WorkerWrite, KeyTaken;
  }
}
