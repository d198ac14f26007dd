/** What holds in every reachable state, and across every run, of the protocol. */
module ProtocolTheorems {
  import opened Lifecycle
  import opened Writers
  import opened Ledger
  import opened Protocol
  import opened ProtocolInvariant
  import opened GatewayKeys

  ghost predicate Reachable(s: Sys) {
    exists states: seq<Sys>, actions: seq<Action>, i: nat :: Run(states, actions) && i < |states| && states[i] == s
  }

  lemma ReachableSatisfiesInv(s: Sys)
    requires Reachable(s)
    ensures Inv(s)
  {
    var states, actions, i: nat :| Run(states, actions) && i < |states| && states[i] == s;
    RunKeepsInv(states, actions, i);
  }

  lemma NextIsReachable(s: Sys, a: Action)
    requires Reachable(s) && Enabled(s, a)
    ensures Reachable(Do(s, a))
  {
    hide Enabled, Do;
    var states, actions, i: nat :| Run(states, actions) && i < |states| && states[i] == s;
    var longer, more := states[..i + 1] + [Do(s, a)], actions[..i] + [a];
    assert Run(longer, more);
    assert longer[i + 1] == Do(s, a);
  }

  /** The invariant of the protocol, unfolded at one row. */
  lemma ReachableRow(s: Sys, t: TxnId)
    requires Reachable(s) && t in s.ledgers
    ensures Sane(s.ledgers[t], LoopOf(s.creators, s.ledgers[t].owner, t), ChargedFor(s.charges, t))
  {
    hide Sane;
    ReachableSatisfiesInv(s);
    assert RowSane(s.ledgers, s.creators, s.charges, t);
  }

  // ---------- Hand-off ----------

  lemma {:induction false} WebhookRowsOfSuffix(moves: seq<AuditLog>, k: nat)
    requires k <= |moves| && forall i :: k <= i < |moves| ==> FromWebhook(moves[i].reason)
    ensures WebhookRows(moves) >= |moves| - k
  {
    if k == |moves| {
    } else {
      WebhookRowsOfSuffix(moves[..|moves| - 1], k);
    }
  }

  lemma TrailIsHandedOver(s: Sys, t: TxnId)
    requires Reachable(s) && t in s.ledgers
    ensures HandedOver(Moves(s.ledgers[t].audit)) && WebhookRows(Moves(s.ledgers[t].audit)) <= 4
  {
    ReachableRow(s, t);
  }

  /** Every trail is rows of the owning run followed by at most four webhook rows. */
  lemma TrailIsCreatorThenWebhooks(s: Sys, t: TxnId) returns (k: nat)
    requires Reachable(s) && t in s.ledgers
    ensures var moves := Moves(s.ledgers[t].audit);
            && k <= |moves| <= k + 4
            && (forall i :: 0 <= i < k ==> !FromWebhook(moves[i].reason))
            && (forall i :: k <= i < |moves| ==> FromWebhook(moves[i].reason))
  {
    hide Reachable, WebhookRows, Moves;
    TrailIsHandedOver(s, t);
    var moves := Moves(s.ledgers[t].audit);
    k := 0;
    while k < |moves| && !FromWebhook(moves[k].reason)
      invariant k <= |moves|
      invariant forall i :: 0 <= i < k ==> !FromWebhook(moves[i].reason)
    {
      k := k + 1;
    }
    WebhookRowsOfSuffix(moves, k);
  }

  lemma {:induction false} MovesOfPrefix(audit: seq<AuditLog>, longer: seq<AuditLog>)
    requires audit <= longer
    ensures Moves(audit) <= Moves(longer)
  {
    if audit == longer {
    } else {
      MovesOfPrefix(audit, longer[..|longer| - 1]);
    }
  }

  /** Once a webhook row is in the trail, every later row of any run comes from a webhook:
      the owning run never makes another transition. */
  lemma NoCreatorRowAfterHandOff(states: seq<Sys>, actions: seq<Action>, i: nat, j: nat, t: TxnId)
    requires Run(states, actions) && i <= j < |states| && t in states[i].ledgers
    requires exists l <- Moves(states[i].ledgers[t].audit) :: FromWebhook(l.reason)
    ensures t in states[j].ledgers
    ensures var early, late := Moves(states[i].ledgers[t].audit), Moves(states[j].ledgers[t].audit);
            early <= late && forall n :: |early| <= n < |late| ==> FromWebhook(late[n].reason)
  {
    hide Extends;
    RunGrows(states, actions, i, j);
    RunAppends(states[i].ledgers, states[j].ledgers, t);
    ReachableRow(states[j], t);
    var early := Moves(states[i].ledgers[t].audit);
    var m :| 0 <= m < |early| && FromWebhook(early[m].reason);
  }

  /** A run that has been overtaken by a webhook throws at its next write, whatever it is. */
  lemma OvertakenRunThrows(s: Sys, run: RunId, now: Time)
    requires Reachable(s) && Enabled(s, WriteState(run, now))
    requires exists l <- Moves(s.ledgers[s.creators[run].pc.txn].audit) :: FromWebhook(l.reason)
    ensures Do(s, WriteState(run, now)).creators[run].pc == Cleanup
    ensures Do(s, WriteState(run, now)).ledgers == s.ledgers
  {
    hide Sane;
    var t, loop := s.creators[run].pc.txn, s.creators[run].pc.loop;
    var moves := Moves(s.ledgers[t].audit);
    ReachableSatisfiesInv(s);
    assert CreatorFits(s.ledgers, run, s.creators[run]);
    LoopInStep(s, run, t);
    if WebhookRows(moves) == 0 {
      QuietTrail(moves);
      assert false;
    }
    if Allowed(s.ledgers[t].row.currentState, CreatorWrite(loop.stage, loop.gateway).toState) {
      CreatorWriteNeedsQuiet(s.ledgers[t], loop);
      assert false;
    }
  }

  lemma LoopInStep(s: Sys, run: RunId, t: TxnId)
    requires Reachable(s) && run in s.creators && t in s.ledgers && s.ledgers[t].owner == run
    requires s.creators[run].pc.InLoop? && s.creators[run].pc.txn == t
    ensures InStep(s.ledgers[t], Some(s.creators[run].pc.loop))
  {
    ReachableRow(s, t);
  }

  lemma RunAppends(ledgers: map<TxnId, Ledger>, after: map<TxnId, Ledger>, t: TxnId)
    requires Grows(ledgers, after) && t in ledgers
    ensures t in after && Moves(ledgers[t].audit) <= Moves(after[t].audit)
  {
    assert Extends(ledgers[t], after[t]);
    MovesOfPrefix(ledgers[t].audit, after[t].audit);
  }

  // ---------- Attempts, trail length, termination ----------

  /** However many workers, webhooks, retried requests and crashes there are, a payment
      is attempted at most once for each ranked gateway. */
  lemma AttemptsAreBounded(s: Sys, t: TxnId)
    requires Reachable(s) && t in s.ledgers
    ensures s.ledgers[t].row.attemptCount <= 1 + |s.ledgers[t].row.fallbackGateways|
  {
    ReachableRow(s, t);
    var h := History(s.ledgers[t]);
    assert SameOrder(h[0], h[|h| - 1]);
  }

  /** The allow-list by itself bounds nothing: it has walks with any number of attempts. */
  lemma {:induction false} AllowListHasNoBound(n: nat) returns (moves: seq<AuditLog>)
    ensures Walk(INITIATED, moves, if n == 0 then INITIATED else RETRY_PENDING)
    ensures Count(moves, PROCESSING) == n
  {
    if n == 0 {
      moves := [];
    } else {
      var before := AllowListHasNoBound(n - 1);
      var start := if n == 1 then INITIATED else RETRY_PENDING;
      var a := before + [AuditLog(0, Some(start), ROUTED, None, None)];
      var b := a + [AuditLog(0, Some(ROUTED), PROCESSING, None, None)];
      moves := b + [AuditLog(0, Some(PROCESSING), RETRY_PENDING, None, None)];
      assert a[..|a| - 1] == before && b[..|b| - 1] == a && moves[..|moves| - 1] == b;
      assert Count(a, PROCESSING) == n - 1 && Count(b, PROCESSING) == n;
      assert Walk(INITIATED, a, ROUTED) && Walk(INITIATED, b, PROCESSING);
    }
  }

  /** The state and the number of retries fix the length of the trail. */
  lemma TrailShape(s: Sys, t: TxnId)
    requires Reachable(s) && t in s.ledgers
    ensures var L := s.ledgers[t];
            var moves := Moves(L.audit);
            && |moves| == 3 * Count(moves, RETRY_PENDING) + Rank(L.row.currentState)
            && |moves| <= 3 * (1 + |L.row.fallbackGateways|) + 1
  {
    ReachableRow(s, t);
    var h := History(s.ledgers[t]);
    assert SameOrder(h[0], h[|h| - 1]);
  }

  /** How many transitions a row can still make. */
  function Fuel(L: Ledger): int {
    3 * (1 + |L.row.fallbackGateways|) + 1 - |Moves(L.audit)|
  }

  /** Every action that changes a row uses up fuel, which never runs below zero. */
  lemma TransitionsTerminate(s: Sys, a: Action, t: TxnId)
    requires Reachable(s) && Enabled(s, a) && t in s.ledgers
    ensures t in Do(s, a).ledgers && Fuel(s.ledgers[t]) >= 0
    ensures Do(s, a).ledgers[t].row == s.ledgers[t].row || Fuel(Do(s, a).ledgers[t]) == Fuel(s.ledgers[t]) - 1
  {
    TrailShape(s, t);
    match a
    case WriteState(run, now) =>
      var pc := s.creators[run].pc;
      var w := CreatorWrite(pc.loop.stage, pc.loop.gateway);
      if pc.txn == t && Allowed(s.ledgers[t].row.currentState, w.toState) {
        MovedParts(s.ledgers[t], w, now);
      }
    case Push(worker, now) =>
      var pc := s.workers[worker].pc;
      var w := WorkerWrite(pc.local, pc.gateway, pc.gatewayTxnId);
      if pc.txn == t && w.Some? && Allowed(s.ledgers[t].row.currentState, w.value.toState) {
        MovedParts(s.ledgers[t], w.value, now);
      }
    case _ =>
  }

  // ---------- Charges ----------

  /** The charge calls for a row are the first gateways of its plan, in order. */
  lemma ChargesFollowThePlan(s: Sys, t: TxnId)
    requires Reachable(s) && t in s.ledgers
    ensures var charged := ChargedFor(s.charges, t);
            var L := s.ledgers[t];
            && Born(L).selectedGateway.Some?
            && charged <= Plan(L) && Distinct(charged)
            && Count(Moves(L.audit), RETRY_PENDING) <= |charged| <= 1 + |Born(L).fallbackGateways|
  {
    ReachableRow(s, t);
  }

  /** Where a charge call stands among those for its row. */
  lemma {:induction false} ChargePosition(charges: seq<Charge>, i: nat)
    requires i < |charges|
    ensures var charged := ChargedFor(charges, charges[i].txn);
            var p := |ChargedFor(charges[..i], charges[i].txn)|;
            p < |charged| && charged[p] == charges[i].gateway
  {
    var front := charges[..|charges| - 1];
    if i < |charges| - 1 {
      ChargePosition(front, i);
      assert front[..i] == charges[..i];
    } else {
      assert charges[..i] == front;
    }
  }

  lemma {:induction false} ChargedForGrows(charges: seq<Charge>, i: nat, j: nat, t: TxnId)
    requires i <= j <= |charges|
    ensures |ChargedFor(charges[..i], t)| <= |ChargedFor(charges[..j], t)|
  {
    if i == j {
    } else {
      ChargedForGrows(charges, i, j - 1, t);
      assert charges[..j][..j - 1] == charges[..j - 1];
    }
  }

  lemma EarlierChargeIsEarlier(charges: seq<Charge>, i: nat, j: nat)
    requires i < j < |charges| && charges[i].txn == charges[j].txn
    ensures |ChargedFor(charges[..i], charges[i].txn)| < |ChargedFor(charges[..j], charges[i].txn)|
  {
    assert charges[..i + 1][..i] == charges[..i];
    ChargedForGrows(charges, i + 1, j, charges[i].txn);
  }

  /** Whatever Redis does, all charge calls for a key come from the one run that inserted
      its row, no (key, gateway) pair is charged twice, and no two calls reach a gateway
      under the same gateway-level key. */
  lemma NoDoubleCharge(s: Sys, i: nat, j: nat)
    requires Reachable(s) && i < j < |s.charges|
    ensures s.charges[i].key == s.charges[j].key ==>
              s.charges[i].run == s.charges[j].run && s.charges[i].gateway != s.charges[j].gateway
    ensures ChargeKey(s.charges[i].key, s.charges[i].gateway) != ChargeKey(s.charges[j].key, s.charges[j].gateway)
  {
    hide Sane;
    ReachableSatisfiesInv(s);
    var c, d := s.charges[i], s.charges[j];
    assert ChargeFits(s.ledgers, c) && ChargeFits(s.ledgers, d);
    if c.key == d.key {
      assert c.txn == d.txn;
      ChargesFollowThePlan(s, c.txn);
      ChargePosition(s.charges, i);
      ChargePosition(s.charges, j);
      EarlierChargeIsEarlier(s.charges, i, j);
    }
    if ChargeKey(c.key, c.gateway) == ChargeKey(d.key, d.gateway) {
      ChargeKeyIsInjective(c.key, c.gateway, d.key, d.gateway);
    }
  }

  /** The charging run is the one whose insert made the row. */
  lemma ChargesComeFromTheInserter(s: Sys, c: Charge, t: TxnId)
    requires Reachable(s) && c in s.charges && t in s.ledgers && s.ledgers[t].row.idempotencyKey == c.key
    ensures c.txn == t && c.run == s.ledgers[t].owner
  {
    hide Sane;
    ReachableSatisfiesInv(s);
    assert ChargeFits(s.ledgers, c);
  }

  // ---------- Audit replay ----------

  /** The audit rows form an unbroken walk, and replaying them gives back the row. */
  lemma AuditReplaysTheRow(s: Sys, t: TxnId)
    requires Reachable(s) && t in s.ledgers
    ensures var L := s.ledgers[t];
            var moves := Moves(L.audit);
            && Walk(INITIATED, moves, L.row.currentState)
            && Replay(Born(L).selectedGateway, moves) ==
               Replica(L.row.currentState, L.row.selectedGateway, L.row.attemptCount, L.row.finalReconciledAt.Some?)
            && L.row.attemptCount == Count(moves, PROCESSING)
            && (L.row.finalReconciledAt.Some? <==> L.row.currentState == RECONCILED)
  {
    ReachableRow(s, t);
    var L := s.ledgers[t];
    LastVersionReplays(L);
    NotReconciledMidway(Born(L).selectedGateway, Moves(L.audit), L.row.currentState);
  }

  /** SUCCESS, FAILED and RECONCILED are each written at most once, FAILED never with the
      other two, and the gateway's transaction id is absent before SUCCESS and fixed after. */
  lemma OutcomeIsWrittenOnce(s: Sys, t: TxnId)
    requires Reachable(s) && t in s.ledgers
    ensures var L := s.ledgers[t];
            var moves := Moves(L.audit);
            && Count(moves, SUCCESS) + Count(moves, FAILED) <= 1
            && Count(moves, RECONCILED) <= Count(moves, SUCCESS)
            && (forall v <- History(L) :: v.gatewayTxnId.Some? <==> Paid(v.currentState))
            && (forall v <- History(L) :: v.gatewayTxnId.Some? ==> v.gatewayTxnId == L.row.gatewayTxnId)
  {
    ReachableRow(s, t);
  }

  // ---------- Responses ----------

  /** The versions a ledger lists are exactly what its row has been in earlier states. */
  lemma {:induction false} VersionsAreReal(states: seq<Sys>, actions: seq<Action>, j: nat, t: TxnId, n: nat)
    returns (i: nat)
    requires Run(states, actions) && j < |states| && t in states[j].ledgers
    requires n < |History(states[j].ledgers[t])|
    ensures i <= j && t in states[i].ledgers && states[i].ledgers[t].row == History(states[j].ledgers[t])[n]
  {
    hide Do, Enabled;
    var L := states[j].ledgers[t];
    if n == |L.past| {
      i := j;
    } else {
      var s := states[j - 1];
      PastComesFromBefore(s, actions[j - 1], t);
      i := VersionsAreReal(states, actions, j - 1, t, n);
    }
  }

  lemma PastComesFromBefore(s: Sys, a: Action, t: TxnId)
    requires Enabled(s, a) && t in Do(s, a).ledgers
    ensures if t in s.ledgers
            then Do(s, a).ledgers[t].past in [s.ledgers[t].past, History(s.ledgers[t])]
            else Do(s, a).ledgers[t].past == []
  {
    hide Transit, Allowed, CreatorWrite, WorkerWrite, KeyTaken, AfterWrite;
  }

  lemma {:induction false} WalkFromThere(
      moves: seq<AuditLog>, n: nat, end: TransactionState, primary: Option<GatewayProvider>)
    requires n <= |moves| && Walk(INITIATED, moves, end)
    ensures Walk(Replay(primary, moves[..n]).state, moves[n..], end)
  {
    var k := |moves| - 1;
    if n < |moves| {
      WalkFromThere(moves[..k], n, moves[k].fromState.value, primary);
      assert moves[..k][..n] == moves[..n] && moves[n..][..k - n] == moves[..k][n..];
    } else {
      assert moves[..n] == moves;
      WalkEndsAtReplay(moves, end, primary);
    }
  }

  lemma {:induction false} WalkEndsAtReplay(
      moves: seq<AuditLog>, end: TransactionState, primary: Option<GatewayProvider>)
    requires Walk(INITIATED, moves, end)
    ensures Replay(primary, moves).state == end
  {
    if moves == [] {
    } else {
      WalkEndsAtReplay(moves[..|moves| - 1], moves[|moves| - 1].fromState.value, primary);
    }
  }

  /** All successful returns of `create` for one key, in any interleaving and whatever Redis
      loses, name one transaction; each is a version the row really had, from which the
      row's present state is reached along the audit rows written since. */
  lemma ResponsesAgree(s: Sys, r1: RunId, r2: RunId) returns (n: nat)
    requires Reachable(s) && r1 in s.creators && r2 in s.creators
    requires s.creators[r1].pc.Returned? && s.creators[r2].pc.Returned?
    requires s.creators[r1].dto.idempotencyKey == s.creators[r2].dto.idempotencyKey
    ensures var a, b := s.creators[r1].pc.snapshot, s.creators[r2].pc.snapshot;
            && a.id == b.id && a.id in s.ledgers
            && a.idempotencyKey == s.creators[r1].dto.idempotencyKey
            && var L := s.ledgers[a.id];
               && n < |History(L)| && History(L)[n] == a
               && n <= |Moves(L.audit)|
               && Walk(a.currentState, Moves(L.audit)[n..], L.row.currentState)
  {
    hide Sane;
    ReachableSatisfiesInv(s);
    assert CreatorFits(s.ledgers, r1, s.creators[r1]) && CreatorFits(s.ledgers, r2, s.creators[r2]);
    n := SnapshotLeadsHere(s, s.creators[r1].dto.idempotencyKey, s.creators[r1].pc.snapshot);
  }

  /** The same for every snapshot some run ever stored in Redis. */
  lemma CachedSnapshotsAreVersions(s: Sys, e: CacheEntry) returns (n: nat)
    requires Reachable(s) && e in s.published
    ensures e.snapshot.id in s.ledgers && e.snapshot.idempotencyKey == e.key
    ensures var L := s.ledgers[e.snapshot.id];
            && n < |History(L)| && History(L)[n] == e.snapshot
            && n <= |Moves(L.audit)|
            && Walk(e.snapshot.currentState, Moves(L.audit)[n..], L.row.currentState)
  {
    hide Sane;
    ReachableSatisfiesInv(s);
    n := SnapshotLeadsHere(s, e.key, e.snapshot);
  }

  lemma SnapshotLeadsHere(s: Sys, key: string, snapshot: Transaction) returns (n: nat)
    requires Reachable(s) && Known(s.ledgers, key, snapshot)
    ensures snapshot.idempotencyKey == key
    ensures var L := s.ledgers[snapshot.id];
            && n < |History(L)| && History(L)[n] == snapshot
            && n <= |Moves(L.audit)|
            && Walk(snapshot.currentState, Moves(L.audit)[n..], L.row.currentState)
  {
    var L := s.ledgers[snapshot.id];
    var h := History(L);
    ReachableRow(s, snapshot.id);
    n :| n < |h| && h[n] == snapshot;
    assert SameOrder(h[0], h[n]) && SameOrder(h[0], h[|h| - 1]);
    assert Observed(h[n]) == Replay(h[0].selectedGateway, Moves(L.audit)[..n]);
    WalkFromThere(Moves(L.audit), n, L.row.currentState, h[0].selectedGateway);
  }

  // ---------- Settlement ----------

  /** A worker that is about to mark its event processed for a matched row has found that
      row FAILED or RECONCILED, and so it stays for the rest of the run. */
  lemma MatchedRowsStaySettled(states: seq<Sys>, actions: seq<Action>, i: nat, j: nat, w: WorkerId, t: TxnId)
    requires Run(states, actions) && i <= j < |states|
    requires w in states[i].workers && states[i].workers[w].pc == Mark(Some(t))
    ensures t in states[i].ledgers && t in states[j].ledgers
    ensures Settled(states[i].ledgers[t].row.currentState)
    ensures states[j].ledgers[t].row == states[i].ledgers[t].row
  {
    hide Sane;
    RunKeepsInv(states, actions, i);
    assert WorkerFits(states[i].ledgers, states[i].workers[w]);
    RunGrows(states, actions, i, j);
    assert Extends(states[i].ledgers[t], states[j].ledgers[t]);
  }

  /** The throw after the loop of `create` is never reached: RETRY_PENDING is written only
      while a fallback is left. */
  lemma LoopNeverRunsDry(s: Sys, run: RunId)
    requires Reachable(s) && run in s.creators && s.creators[run].pc.InLoop?
    ensures s.creators[run].pc.loop.stage.Retry? ==> AfterWrite(s.creators[run].pc.loop).Some?
  {
    hide Sane;
    ReachableSatisfiesInv(s);
    assert CreatorFits(s.ledgers, run, s.creators[run]);
    LoopInStep(s, run, s.creators[run].pc.txn);
  }

  /** The allow-list lets RETRY_PENDING go to FAILED, but whatever happens next to a row in
      RETRY_PENDING leaves it there or takes it to ROUTED. */
  lemma RetryIsNeverGivenUp(s: Sys, a: Action, t: TxnId)
    requires Reachable(s) && Enabled(s, a) && t in s.ledgers && s.ledgers[t].row.currentState == RETRY_PENDING
    ensures t in Do(s, a).ledgers
    ensures Do(s, a).ledgers[t].row.currentState in {RETRY_PENDING, ROUTED}
  {
    hide Reachable, Sane;
    if a.WriteState? && s.creators[a.run].pc.txn == t {
      ReachableSatisfiesInv(s);
      assert CreatorFits(s.ledgers, a.run, s.creators[a.run]);
      LoopInStep(s, a.run, t);
      FailIsNotEnabled(s.ledgers[t], s.creators[a.run].pc.loop);
    }
    OnlyTwoSuccessors(s, a, t);
  }

  lemma FailIsNotEnabled(L: Ledger, loop: Loop)
    requires InStep(L, Some(loop)) && L.row.currentState == RETRY_PENDING
    ensures !loop.stage.Fail?
  {
  }

  lemma OnlyTwoSuccessors(s: Sys, a: Action, t: TxnId)
    requires Enabled(s, a) && t in s.ledgers && s.ledgers[t].row.currentState == RETRY_PENDING
    requires a.WriteState? && s.creators[a.run].pc.txn == t ==> !s.creators[a.run].pc.loop.stage.Fail?
    ensures t in Do(s, a).ledgers
    ensures Do(s, a).ledgers[t].row.currentState in {RETRY_PENDING, ROUTED}
  {
    hide KeyTaken, FindAnswers, AfterCall, AfterWrite;
  }

  /** Wherever a run waits inside the try block, a failure takes it to the catch block, which
      deletes the key and throws on; before its end it may also stop altogether. */
  lemma FailuresReachTheCatchBlock(s: Sys, run: RunId)
    requires run in s.creators
    ensures var pc := s.creators[run].pc;
            && (pc.DoubleCheck? || pc.RankGateways? || pc.Insert? || pc.InLoop? || pc.Publish? ==>
                  && Enabled(s, Fault(run)) && Do(s, Fault(run)).creators[run].pc == Cleanup
                  && var caught := Do(s, Fault(run));
                     Enabled(caught, CleanUp(run)) && Do(caught, CleanUp(run)).creators[run].pc == Threw)
            && (!pc.Returned? && !pc.Threw? ==>
                  Enabled(s, Crash(run)) && Do(s, Crash(run)).creators[run].pc == Crashed)
  {
  }
}
