/** What the rest of a run can still do once a webhook has taken a row over, and once a
    gateway has answered a charge call with success. */
module RestOfRun {
  import opened Lifecycle
  import opened Writers
  import opened Ledger
  import opened Protocol
  import opened ProtocolInvariant
  import opened ProtocolTheorems
  import opened Provenance

  // ---------- After the hand-off ----------

  /** A webhook row is in the trail. */
  predicate TakenOver(s: Sys, t: TxnId) {
    t in s.ledgers && exists l <- Moves(s.ledgers[t].audit) :: FromWebhook(l.reason)
  }

  lemma StaysTakenOver(s: Sys, a: Action, t: TxnId)
    requires Enabled(s, a) && TakenOver(s, t)
    ensures TakenOver(Do(s, a), t)
  {
    hide Do, Enabled, Moves;
    StepGrows(s, a);
    RunAppends(s.ledgers, Do(s, a).ledgers, t);
    var moves := Moves(s.ledgers[t].audit);
    var n :| 0 <= n < |moves| && FromWebhook(moves[n].reason);
    assert Moves(Do(s, a).ledgers[t].audit)[n] == moves[n];
  }

  /** Where a run can be after a webhook has taken over the row it works on. */
  predicate Overtaken(s: Sys, run: RunId, t: TxnId) {
    && run in s.creators
    && match s.creators[run].pc
       case InLoop(u, _) => u == t && TakenOver(s, t)
       case Cleanup => true
       case Threw => true
       case Crashed => true
       case _ => false
  }

  lemma StepKeepsOvertaken(s: Sys, a: Action, run: RunId, t: TxnId)
    requires Reachable(s) && Enabled(s, a) && Overtaken(s, run, t)
    ensures Overtaken(Do(s, a), run, t)
  {
    hide Reachable, TakenOver;
    if s.creators[run].pc.InLoop? {
      StaysTakenOver(s, a, t);
      if a.WriteState? && a.run == run {
        TakenOverRunThrows(s, run, a.now);
      } else {
        OthersStayOrLeave(s, a, run);
      }
    } else {
      OutOfLoopSteps(s, a, run);
    }
  }

  lemma TakenOverRunThrows(s: Sys, run: RunId, now: Time)
    requires Reachable(s) && Enabled(s, WriteState(run, now)) && TakenOver(s, s.creators[run].pc.txn)
    ensures run in Do(s, WriteState(run, now)).creators && Do(s, WriteState(run, now)).creators[run].pc == Cleanup
    ensures Do(s, WriteState(run, now)).charges == s.charges
  {
    hide Reachable, Moves;
    OvertakenRunThrows(s, run, now);
  }

  /** Whatever is done but its own write, a run in its loop stays at its row, or leaves. */
  lemma OthersStayOrLeave(s: Sys, a: Action, run: RunId)
    requires Enabled(s, a) && run in s.creators && s.creators[run].pc.InLoop?
    requires !(a.WriteState? && a.run == run)
    ensures run in Do(s, a).creators
    ensures var pc := Do(s, a).creators[run].pc;
            pc.Cleanup? || pc.Crashed? || (pc.InLoop? && pc.txn == s.creators[run].pc.txn)
  {
    hide Moved, Allowed, KeyTaken, CreatorWrite, WorkerWrite;
  }

  lemma OutOfLoopSteps(s: Sys, a: Action, run: RunId)
    requires Enabled(s, a) && run in s.creators
    requires s.creators[run].pc.Cleanup? || s.creators[run].pc.Threw? || s.creators[run].pc.Crashed?
    ensures run in Do(s, a).creators
    ensures var pc := Do(s, a).creators[run].pc; pc.Cleanup? || pc.Threw? || pc.Crashed?
  {
    hide Moved, Allowed, KeyTaken, CreatorWrite, WorkerWrite;
  }

  /** A run in its loop at row `t`, which a webhook has taken over, never gets to an answer
      for its client in the rest of the run: it ends in the catch block or crashes. */
  lemma {:induction false} OvertakenRunNeverReturns(
      states: seq<Sys>, actions: seq<Action>, i: nat, j: nat, run: RunId, t: TxnId)
    requires Run(states, actions) && i <= j < |states| && TakenOver(states[i], t)
    requires run in states[i].creators
    requires states[i].creators[run].pc.InLoop? && states[i].creators[run].pc.txn == t
    ensures Overtaken(states[j], run, t)
    ensures !states[j].creators[run].pc.Publish? && !states[j].creators[run].pc.Returned?
  {
    hide Do, Enabled, TakenOver, Reachable;
    if i == j {
    } else {
      OvertakenRunNeverReturns(states, actions, i, j - 1, run, t);
      StateIsReachable(states, actions, j - 1);
      StepKeepsOvertaken(states[j - 1], actions[j - 1], run, t);
    }
  }

  /** The owner of row `t` is about to place a charge call. */
  predicate AtCall(s: Sys, t: TxnId) {
    && t in s.ledgers
    && var loop := LoopOf(s.creators, s.ledgers[t].owner, t);
       loop.Some? && loop.value.stage.Call?
  }

  lemma StepStaysQuiet(s: Sys, a: Action, t: TxnId)
    requires Reachable(s) && Enabled(s, a) && TakenOver(s, t) && !AtCall(s, t)
    ensures !AtCall(Do(s, a), t)
    ensures ChargedFor(Do(s, a).charges, t) == ChargedFor(s.charges, t)
  {
    hide Reachable, ChargedFor, TakenOver;
    assert t in s.ledgers by {
      TakenOverIsThere(s, t);
    }
    StepGrows(s, a);
    assert Extends(s.ledgers[t], Do(s, a).ledgers[t]);
    if a.WriteState? && s.creators[a.run].pc.txn == t {
      TakenOverRunThrows(s, a.run, a.now);
      OwnerIsAtWork(s, a.run);
    } else if a.PlaceCharge? {
      OwnerIsAtWork(s, a.run);
      ChargedForAppend(s.charges, Do(s, a).charges[|s.charges|], t);
    } else {
      CallComesFromWrites(s, a, t);
    }
  }

  lemma TakenOverIsThere(s: Sys, t: TxnId)
    requires TakenOver(s, t)
    ensures t in s.ledgers
  {
  }

  lemma CallComesFromWrites(s: Sys, a: Action, t: TxnId)
    requires Enabled(s, a) && t in s.ledgers && t in Do(s, a).ledgers
    requires Do(s, a).ledgers[t].owner == s.ledgers[t].owner
    requires !AtCall(s, t) && !a.PlaceCharge? && !(a.WriteState? && s.creators[a.run].pc.txn == t)
    ensures !AtCall(Do(s, a), t) && Do(s, a).charges == s.charges
  {
    hide Moved, Allowed, KeyTaken, CreatorWrite, WorkerWrite;
  }

  /** After the hand-off the one further charge call can be made exactly if the owner then
      stands right before it: from there it is enabled, and from anywhere else no charge
      call for the row is made in the rest of the run. */
  lemma {:induction false} ExtraChargeIffAtCall(
      states: seq<Sys>, actions: seq<Action>, i: nat, j: nat, t: TxnId)
    requires Run(states, actions) && i <= j < |states| && TakenOver(states[i], t)
    ensures t in states[i].ledgers
    ensures AtCall(states[i], t) ==>
              var call := PlaceCharge(states[i].ledgers[t].owner);
              Enabled(states[i], call) &&
              |ChargedFor(Do(states[i], call).charges, t)| == |ChargedFor(states[i].charges, t)| + 1
    ensures !AtCall(states[i], t) ==>
              && TakenOver(states[j], t) && !AtCall(states[j], t)
              && ChargedFor(states[j].charges, t) == ChargedFor(states[i].charges, t)
  {
    hide Do, Enabled, TakenOver, AtCall, Reachable, ChargedFor;
    TakenOverIsThere(states[i], t);
    if AtCall(states[i], t) {
      CallCanBePlaced(states[i], t);
    } else if i == j {
    } else {
      ExtraChargeIffAtCall(states, actions, i, j - 1, t);
      StateIsReachable(states, actions, j - 1);
      StaysTakenOver(states[j - 1], actions[j - 1], t);
      StepStaysQuiet(states[j - 1], actions[j - 1], t);
    }
  }

  lemma CallCanBePlaced(s: Sys, t: TxnId)
    requires AtCall(s, t)
    ensures var call := PlaceCharge(s.ledgers[t].owner);
            Enabled(s, call) && |ChargedFor(Do(s, call).charges, t)| == |ChargedFor(s.charges, t)| + 1
  {
    hide ChargedFor;
    var after := Do(s, PlaceCharge(s.ledgers[t].owner)).charges;
    ChargedForAppend(s.charges, after[|s.charges|], t);
  }

  // ---------- After a charge call has succeeded ----------

  /** Where a run can be once one of its charge calls has been answered with success. */
  predicate HasSucceeded(s: Sys, run: RunId) {
    && run in s.creators
    && var pc := s.creators[run].pc;
       || (pc.InLoop? && pc.loop.stage.Succeed?)
       || pc.Publish? || pc.Returned? || pc.Cleanup? || pc.Threw? || pc.Crashed?
  }

  lemma StepKeepsSucceeded(s: Sys, a: Action, run: RunId)
    requires Enabled(s, a) && HasSucceeded(s, run)
    ensures HasSucceeded(Do(s, a), run)
  {
    hide Moved, Allowed, KeyTaken, CreatorWrite, WorkerWrite;
  }

  /** The run places no further charge call and gets no further answer, and no call for its
      row is made by anyone else: the call that succeeded is the last one. */
  lemma {:induction false} SuccessIsTheLastCharge(
      states: seq<Sys>, actions: seq<Action>, i: nat, j: nat, run: RunId, id: string)
    requires Run(states, actions) && i < j < |states| && actions[i] == AnswerCharge(run, Charged(id))
    ensures run in states[i].creators && states[i].creators[run].pc.InLoop?
    ensures HasSucceeded(states[j], run)
    ensures j < |actions| ==> actions[j] != PlaceCharge(run) && !(actions[j].AnswerCharge? && actions[j].run == run)
    ensures var pc := states[i].creators[run].pc;
            var charged := ChargedFor(states[i].charges, pc.txn);
            && charged != [] && charged[|charged| - 1] == pc.loop.gateway
            && ChargedFor(states[j].charges, pc.txn) == charged
  {
    hide Do, Reachable, ChargedFor;
    var t := states[i].creators[run].pc.txn;
    StateIsReachable(states, actions, i);
    if j == i + 1 {
      LastChargeIsCurrent(states[i], run);
      SuccessIsAnswered(states[i], run, id);
    } else {
      SuccessIsTheLastCharge(states, actions, i, j - 1, run, id);
      StateIsReachable(states, actions, j - 1);
      StepKeepsSucceeded(states[j - 1], actions[j - 1], run);
      OwnerIsAtWork(states[i], run);
      RunGrows(states, actions, i, j - 1);
      assert Extends(states[i].ledgers[t], states[j - 1].ledgers[t]);
      OnlyOwnerCharges(states[j - 1], actions[j - 1], t);
    }
  }

  lemma SuccessIsAnswered(s: Sys, run: RunId, id: string)
    requires Enabled(s, AnswerCharge(run, Charged(id)))
    ensures HasSucceeded(Do(s, AnswerCharge(run, Charged(id))), run)
    ensures Do(s, AnswerCharge(run, Charged(id))).charges == s.charges
  {
  }

  lemma OnlyOwnerCharges(s: Sys, a: Action, t: TxnId)
    requires Reachable(s) && Enabled(s, a) && t in s.ledgers
    requires a != PlaceCharge(s.ledgers[t].owner)
    ensures ChargedFor(Do(s, a).charges, t) == ChargedFor(s.charges, t)
  {
    hide Reachable, ChargedFor, Moved, Allowed, KeyTaken;
    if a.PlaceCharge? {
      OwnerIsAtWork(s, a.run);
      ChargedForAppend(s.charges, Do(s, a).charges[|s.charges|], t);
    } else {
      assert Do(s, a).charges == s.charges;
    }
  }

  /** Of all charge calls under one client key, by whatever runs and however Redis behaves,
      at most one is ever answered with success. */
  lemma OneSuccessPerKey(states: seq<Sys>, actions: seq<Action>, i: nat, j: nat)
    requires Run(states, actions) && i <= j < |actions|
    requires actions[i].AnswerCharge? && actions[i].outcome.Charged?
    requires actions[j].AnswerCharge? && actions[j].outcome.Charged?
    requires states[i].creators[actions[i].run].dto.idempotencyKey ==
             states[j].creators[actions[j].run].dto.idempotencyKey
    ensures i == j
  {
    hide Do, Reachable, ChargedFor, Sane;
    var t, u := states[i].creators[actions[i].run].pc.txn, states[j].creators[actions[j].run].pc.txn;
    RunKeepsInv(states, actions, i);
    RunKeepsInv(states, actions, j);
    assert CreatorFits(states[i].ledgers, actions[i].run, states[i].creators[actions[i].run]);
    assert CreatorFits(states[j].ledgers, actions[j].run, states[j].creators[actions[j].run]);
    RunGrows(states, actions, i, j);
    assert Extends(states[i].ledgers[t], states[j].ledgers[t]);
    assert t == u && actions[i].run == actions[j].run;
    if i < j {
      SuccessIsTheLastCharge(states, actions, i, j, actions[i].run, actions[i].outcome.gatewayTxnId);
    }
  }
}
