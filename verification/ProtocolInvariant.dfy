/** The inductive invariant of the protocol, over the program counters of all actors,
    and its preservation by every action. */
module ProtocolInvariant {
  import opened Lifecycle
  import opened Writers
  import opened Ledger
  import opened Protocol

  /** The loop in which the run that inserted row `t` stands, if it is still in it. */
  function LoopOf(creators: map<RunId, Creator>, owner: RunId, t: TxnId): Option<Loop> {
    if owner in creators && creators[owner].pc.InLoop? && creators[owner].pc.txn == t
    then Some(creators[owner].pc.loop)
    else None
  }

  /** The gateways charged for row `t`, in order. */
  function ChargedFor(charges: seq<Charge>, t: TxnId): seq<GatewayProvider> {
    if charges == [] then []
    else
      var c := charges[|charges| - 1];
      ChargedFor(charges[..|charges| - 1], t) + if c.txn == t then [c.gateway] else []
  }

  lemma ChargedForAppend(charges: seq<Charge>, c: Charge, t: TxnId)
    ensures ChargedFor(charges + [c], t) == ChargedFor(charges, t) + if c.txn == t then [c.gateway] else []
  {
    assert (charges + [c])[..|charges|] == charges;
  }

  predicate RowSane(ledgers: map<TxnId, Ledger>, creators: map<RunId, Creator>, charges: seq<Charge>, t: TxnId)
    requires t in ledgers
  {
    Sane(ledgers[t], LoopOf(creators, ledgers[t].owner, t), ChargedFor(charges, t))
  }

  predicate Rows(s: Sys) {
    forall t :: t in s.ledgers ==> RowSane(s.ledgers, s.creators, s.charges, t)
  }

  /** The primary key and the unique index on the idempotency key. */
  predicate Keys(ledgers: map<TxnId, Ledger>) {
    && (forall t :: t in ledgers ==> ledgers[t].row.id == t)
    && (forall t, u :: t in ledgers && u in ledgers && ledgers[t].row.idempotencyKey == ledgers[u].row.idempotencyKey
          ==> t == u)
  }

  predicate CreatorFits(ledgers: map<TxnId, Ledger>, run: RunId, c: Creator) {
    match c.pc
    case Insert(primary, fallbacks) => Distinct([primary] + fallbacks)
    case InLoop(t, _) =>
      t in ledgers && ledgers[t].owner == run && ledgers[t].row.idempotencyKey == c.dto.idempotencyKey
    case Publish(snapshot) => Known(ledgers, c.dto.idempotencyKey, snapshot)
    case Returned(snapshot) => Known(ledgers, c.dto.idempotencyKey, snapshot)
    case _ => true
  }

  /** The snapshot is a version that the row with this key really had. */
  predicate Known(ledgers: map<TxnId, Ledger>, key: string, snapshot: Transaction) {
    && snapshot.id in ledgers
    && ledgers[snapshot.id].row.idempotencyKey == key
    && snapshot in History(ledgers[snapshot.id])
  }

  predicate Creators(s: Sys) {
    && (forall t :: t in s.ledgers ==> s.ledgers[t].owner in s.creators)
    && (forall run :: run in s.creators ==> CreatorFits(s.ledgers, run, s.creators[run]))
  }

  predicate Cache(s: Sys) {
    forall e :: e in s.published ==> Known(s.ledgers, e.key, e.snapshot)
  }

  predicate ChargeFits(ledgers: map<TxnId, Ledger>, c: Charge) {
    && c.txn in ledgers
    && ledgers[c.txn].owner == c.run
    && ledgers[c.txn].row.idempotencyKey == c.key
  }

  predicate Charges(s: Sys) {
    forall c <- s.charges :: ChargeFits(s.ledgers, c)
  }

  /** A worker that holds a settled state holds the row's true state. */
  predicate WorkerFits(ledgers: map<TxnId, Ledger>, w: Worker) {
    match w.pc
    case Drive(t, _, _, local) => t in ledgers && (Settled(local) ==> ledgers[t].row.currentState == local)
    case Mark(Some(t)) => t in ledgers && Settled(ledgers[t].row.currentState)
    case _ => true
  }

  predicate Workers(s: Sys) {
    forall w :: w in s.workers ==> WorkerFits(s.ledgers, s.workers[w])
  }

  predicate Inv(s: Sys) {
    Rows(s) && Keys(s.ledgers) && Creators(s) && Cache(s) && Charges(s) && Workers(s)
  }

  lemma InvHoldsAtStart()
    ensures Inv(START)
  {
  }

  // ---------- Ledgers only grow ----------

  /** What no step undoes: owner, identity, versions, audit rows, a settled state. */
  predicate Extends(L: Ledger, M: Ledger) {
    && M.owner == L.owner
    && SameOrder(L.row, M.row)
    && History(L) <= History(M)
    && L.audit <= M.audit
    && (Settled(L.row.currentState) ==> M.row == L.row)
  }

  predicate Grows(ledgers: map<TxnId, Ledger>, after: map<TxnId, Ledger>) {
    forall t :: t in ledgers ==> t in after && Extends(ledgers[t], after[t])
  }

  lemma MovedExtends(L: Ledger, w: Write, now: Time)
    requires Allowed(L.row.currentState, w.toState)
    ensures Extends(L, Moved(L, w, now))
  {
    assert History(Moved(L, w, now))[..|History(L)|] == History(L);
  }

  lemma StepGrows(s: Sys, a: Action)
    requires Enabled(s, a)
    ensures Grows(s.ledgers, Do(s, a).ledgers)
  {
    match a
    case WriteState(run, now) =>
      var pc := s.creators[run].pc;
      var w := CreatorWrite(pc.loop.stage, pc.loop.gateway);
      if Allowed(s.ledgers[pc.txn].row.currentState, w.toState) {
        MovedExtends(s.ledgers[pc.txn], w, now);
      }
    case Push(w, now) =>
      var pc := s.workers[w].pc;
      var write := WorkerWrite(pc.local, pc.gateway, pc.gatewayTxnId);
      if write.Some? && Allowed(s.ledgers[pc.txn].row.currentState, write.value.toState) {
        MovedExtends(s.ledgers[pc.txn], write.value, now);
      }
    case _ =>
  }

  lemma KnownStays(ledgers: map<TxnId, Ledger>, after: map<TxnId, Ledger>, key: string, snapshot: Transaction)
    requires Grows(ledgers, after) && Known(ledgers, key, snapshot)
    ensures Known(after, key, snapshot)
  {
    var t := snapshot.id;
    assert Extends(ledgers[t], after[t]);
    var n :| 0 <= n < |History(ledgers[t])| && History(ledgers[t])[n] == snapshot;
    assert History(after[t])[n] == snapshot;
  }

  // ---------- Rows ----------

  /** Actions that leave ledgers and charges alone and move at most one run. */
  lemma RowsSurviveLeaving(s: Sys, after: Sys, run: RunId)
    requires Rows(s) && after.ledgers == s.ledgers && after.charges == s.charges
    requires after.creators.Keys == s.creators.Keys
    requires forall r :: r in s.creators && r != run ==> after.creators[r] == s.creators[r]
    requires run in s.creators ==> !after.creators[run].pc.InLoop?
    ensures Rows(after)
  {
    hide Sane;
    forall t | t in after.ledgers
      ensures RowSane(after.ledgers, after.creators, after.charges, t)
    {
      assert RowSane(s.ledgers, s.creators, s.charges, t);
      if s.ledgers[t].owner == run {
        LeavingKeepsSane(s.ledgers[t], LoopOf(s.creators, run, t), ChargedFor(s.charges, t));
      }
    }
  }

  /** Actions that touch one row `t`, whose own story stays sane. */
  lemma RowsSurviveOne(s: Sys, after: Sys, run: RunId, t: TxnId)
    requires Rows(s) && t in after.ledgers && RowSane(after.ledgers, after.creators, after.charges, t)
    requires after.ledgers.Keys == s.ledgers.Keys + {t}
    requires forall u :: u in s.ledgers && u != t ==> after.ledgers[u] == s.ledgers[u]
    requires forall r :: r in s.creators && r != run ==> r in after.creators && after.creators[r] == s.creators[r]
    requires forall r :: r in after.creators && r != run ==> r in s.creators
    requires run in s.creators && run in after.creators
    requires s.creators[run].pc.InLoop? ==> s.creators[run].pc.txn == t || after.creators[run] == s.creators[run]
    requires after.creators[run].pc.InLoop? ==>
               after.creators[run].pc.txn == t || after.creators[run] == s.creators[run]
    requires forall u :: u != t ==> ChargedFor(after.charges, u) == ChargedFor(s.charges, u)
    ensures Rows(after)
  {
    hide Sane;
    forall u | u in after.ledgers
      ensures RowSane(after.ledgers, after.creators, after.charges, u)
    {
      if u != t {
        assert RowSane(s.ledgers, s.creators, s.charges, u);
        var owner := s.ledgers[u].owner;
        assert LoopOf(after.creators, owner, u) == LoopOf(s.creators, owner, u);
      }
    }
  }

  lemma {:induction false} NoChargesYet(ledgers: map<TxnId, Ledger>, charges: seq<Charge>, t: TxnId)
    requires forall c <- charges :: c.txn in ledgers
    requires t !in ledgers
    ensures ChargedFor(charges, t) == []
  {
    if charges == [] {
    } else {
      assert charges[|charges| - 1] in charges;
      NoChargesYet(ledgers, charges[..|charges| - 1], t);
    }
  }

  lemma InsertKeepsRows(s: Sys, run: RunId, id: TxnId)
    requires Inv(s) && Enabled(s, InsertRow(run, id))
    ensures Rows(Do(s, InsertRow(run, id)))
  {
    hide Sane;
    var after := Do(s, InsertRow(run, id));
    var c := s.creators[run];
    assert CreatorFits(s.ledgers, run, c);
    if KeyTaken(s.ledgers, c.dto.idempotencyKey) {
      RowsSurviveLeaving(s, after, run);
    } else {
      NoChargesYet(s.ledgers, s.charges, id);
      NewLedgerIsSane(run, after.ledgers[id].row, c.pc.primary, c.pc.fallbacks);
      RowsSurviveOne(s, after, run, id);
    }
  }

  lemma LogCreationKeepsRows(s: Sys, run: RunId)
    requires Inv(s) && Enabled(s, LogCreation(run))
    ensures Rows(Do(s, LogCreation(run)))
  {
    hide Sane;
    var pc := s.creators[run].pc;
    assert CreatorFits(s.ledgers, run, s.creators[run]);
    assert RowSane(s.ledgers, s.creators, s.charges, pc.txn);
    NoteKeepsSane(s.ledgers[pc.txn], pc.loop, ChargedFor(s.charges, pc.txn), CreatedLog(pc.txn, pc.loop.gateway));
    RowsSurviveOne(s, Do(s, LogCreation(run)), run, pc.txn);
  }

  lemma WriteStateKeepsRows(s: Sys, run: RunId, now: Time)
    requires Inv(s) && Enabled(s, WriteState(run, now))
    ensures Rows(Do(s, WriteState(run, now)))
  {
    hide Sane;
    var after := Do(s, WriteState(run, now));
    var pc := s.creators[run].pc;
    var L := s.ledgers[pc.txn];
    assert CreatorFits(s.ledgers, run, s.creators[run]);
    assert RowSane(s.ledgers, s.creators, s.charges, pc.txn);
    if Allowed(L.row.currentState, CreatorWrite(pc.loop.stage, pc.loop.gateway).toState) {
      CreatorWriteKeepsSane(L, pc.loop, now, ChargedFor(s.charges, pc.txn));
      RowsSurviveOne(s, after, run, pc.txn);
    } else {
      RowsSurviveLeaving(s, after, run);
    }
  }

  lemma PlaceChargeKeepsRows(s: Sys, run: RunId)
    requires Inv(s) && Enabled(s, PlaceCharge(run))
    ensures Rows(Do(s, PlaceCharge(run)))
  {
    hide Sane;
    var after := Do(s, PlaceCharge(run));
    var pc := s.creators[run].pc;
    assert CreatorFits(s.ledgers, run, s.creators[run]);
    assert RowSane(s.ledgers, s.creators, s.charges, pc.txn);
    CallKeepsSane(s.ledgers[pc.txn], pc.loop, ChargedFor(s.charges, pc.txn));
    forall u ensures ChargedFor(after.charges, u) ==
                     ChargedFor(s.charges, u) + if u == pc.txn then [pc.loop.gateway] else []
    {
      ChargedForAppend(s.charges, after.charges[|s.charges|], u);
    }
    RowsSurviveOne(s, after, run, pc.txn);
  }

  lemma AnswerChargeKeepsRows(s: Sys, run: RunId, outcome: Outcome)
    requires Inv(s) && Enabled(s, AnswerCharge(run, outcome))
    ensures Rows(Do(s, AnswerCharge(run, outcome)))
  {
    hide Sane;
    var pc := s.creators[run].pc;
    assert CreatorFits(s.ledgers, run, s.creators[run]);
    assert RowSane(s.ledgers, s.creators, s.charges, pc.txn);
    AnswerKeepsSane(s.ledgers[pc.txn], pc.loop, ChargedFor(s.charges, pc.txn), outcome);
    RowsSurviveOne(s, Do(s, AnswerCharge(run, outcome)), run, pc.txn);
  }

  lemma PushKeepsRows(s: Sys, w: WorkerId, now: Time)
    requires Inv(s) && Enabled(s, Push(w, now))
    ensures Rows(Do(s, Push(w, now)))
  {
    hide Sane;
    var after := Do(s, Push(w, now));
    var pc := s.workers[w].pc;
    var L := s.ledgers[pc.txn];
    var write := WorkerWrite(pc.local, pc.gateway, pc.gatewayTxnId);
    assert RowSane(s.ledgers, s.creators, s.charges, pc.txn);
    if write.Some? && Allowed(L.row.currentState, write.value.toState) {
      WorkerWriteClimbs(pc.local, L.row.currentState, pc.gateway, pc.gatewayTxnId);
      WebhookWriteKeepsSane(L, LoopOf(s.creators, L.owner, pc.txn), write.value, now, ChargedFor(s.charges, pc.txn));
      assert L.owner in s.creators;
      RowsSurviveOne(s, after, L.owner, pc.txn);
    } else {
      assert after.ledgers == s.ledgers && after.creators == s.creators && after.charges == s.charges;
    }
  }

  lemma BeginKeepsRows(s: Sys, run: RunId, dto: CreateTransactionDto)
    requires Inv(s) && Enabled(s, Begin(run, dto))
    ensures Rows(Do(s, Begin(run, dto)))
  {
    hide Sane;
    var after := Do(s, Begin(run, dto));
    forall t | t in after.ledgers
      ensures RowSane(after.ledgers, after.creators, after.charges, t)
    {
      assert RowSane(s.ledgers, s.creators, s.charges, t);
      assert LoopOf(after.creators, s.ledgers[t].owner, t) == LoopOf(s.creators, s.ledgers[t].owner, t);
    }
  }

  predicate ByCreator(a: Action) {
    !(a.Spawn? || a.AnswerLoad? || a.AnswerLookup? || a.Push? || a.MarkProcessed? || a.WorkerFault? || a.WorkerCrash?)
  }

  /** Actions that touch no ledger, and take a run at most out of its loop. */
  lemma OthersKeepRows(s: Sys, a: Action)
    requires Rows(s) && Enabled(s, a)
    requires !(a.Begin? || a.InsertRow? || a.LogCreation? || a.WriteState? || a.PlaceCharge? || a.AnswerCharge? ||
               a.Push?)
    ensures Rows(Do(s, a))
  {
    hide Rows;
    var after := Do(s, a);
    assert after.ledgers == s.ledgers && after.charges == s.charges;
    if ByCreator(a) {
      RowsSurviveLeaving(s, after, a.run);
    } else {
      assert after.creators == s.creators;
      RowsDependOn(s, after);
    }
  }

  lemma RowsDependOn(s: Sys, after: Sys)
    requires Rows(s)
    requires after.ledgers == s.ledgers && after.charges == s.charges && after.creators == s.creators
    ensures Rows(after)
  {
    hide RowSane;
  }

  lemma StepKeepsRows(s: Sys, a: Action)
    requires Inv(s) && Enabled(s, a)
    ensures Rows(Do(s, a))
  {
    hide RowSane, Charges, Cache, Creators, Workers, Keys, Do, Enabled, Rows;
    match a
    case Begin(run, dto) => BeginKeepsRows(s, run, dto);
    case InsertRow(run, id) => InsertKeepsRows(s, run, id);
    case LogCreation(run) => LogCreationKeepsRows(s, run);
    case WriteState(run, now) => WriteStateKeepsRows(s, run, now);
    case PlaceCharge(run) => PlaceChargeKeepsRows(s, run);
    case AnswerCharge(run, outcome) => AnswerChargeKeepsRows(s, run, outcome);
    case Push(w, now) => PushKeepsRows(s, w, now);
    case _ => OthersKeepRows(s, a);
  }

  // ---------- The other conjuncts ----------

  lemma StepKeepsKeys(s: Sys, a: Action)
    requires Keys(s.ledgers) && Enabled(s, a)
    ensures Keys(Do(s, a).ledgers)
  {
    if a.InsertRow? {
      InsertKeepsKeys(s, a.run, a.id);
    } else {
      hide Do, Enabled;
      OnlyInsertAdds(s, a);
      StepGrows(s, a);
      var after := Do(s, a).ledgers;
      forall t | t in after
        ensures after[t].row.id == t && after[t].row.idempotencyKey == s.ledgers[t].row.idempotencyKey
      {
        assert Extends(s.ledgers[t], after[t]);
      }
    }
  }

  lemma InsertKeepsKeys(s: Sys, run: RunId, id: TxnId)
    requires Keys(s.ledgers) && Enabled(s, InsertRow(run, id))
    ensures Keys(Do(s, InsertRow(run, id)).ledgers)
  {
  }

  lemma OnlyInsertAdds(s: Sys, a: Action)
    requires Enabled(s, a) && !a.InsertRow?
    ensures Do(s, a).ledgers.Keys == s.ledgers.Keys
  {
  }

  lemma CreatorStays(ledgers: map<TxnId, Ledger>, after: map<TxnId, Ledger>, run: RunId, c: Creator)
    requires Grows(ledgers, after) && CreatorFits(ledgers, run, c)
    ensures CreatorFits(after, run, c)
  {
    match c.pc
    case Publish(snapshot) => KnownStays(ledgers, after, c.dto.idempotencyKey, snapshot);
    case Returned(snapshot) => KnownStays(ledgers, after, c.dto.idempotencyKey, snapshot);
    case _ =>
  }

  /** An action moves no run but its own. */
  lemma OnlyActorMoves(s: Sys, a: Action, run: RunId)
    requires Enabled(s, a) && run in s.creators && Do(s, a).creators[run] != s.creators[run]
    ensures ByCreator(a) && !a.Begin? && a.run == run
  {
  }

  /** The run that acted still fits. */
  lemma ActorFits(s: Sys, a: Action, run: RunId)
    requires Keys(s.ledgers) && Cache(s) && Enabled(s, a)
    requires run in s.creators && CreatorFits(s.ledgers, run, s.creators[run])
    requires ByCreator(a) && !a.Begin? && a.run == run
    ensures CreatorFits(Do(s, a).ledgers, run, Do(s, a).creators[run])
  {
    hide Do, CreatorFits;
    match a
    case AnswerFind(_, found) => FinderFits(s, run, found);
    case WriteState(_, now) => WriterFits(s, run, now);
    case InsertRow(_, id) => LooperFits(s, a, run);
    case LogCreation(_) => LooperFits(s, a, run);
    case PlaceCharge(_) => LooperFits(s, a, run);
    case AnswerCharge(_, _) => LooperFits(s, a, run);
    case AnswerRanking(_, ranking) => RankerFits(s, run, ranking);
    case _ => LeaverFits(s, a, run);
  }

  lemma RankerFits(s: Sys, run: RunId, ranking: seq<GatewayProvider>)
    requires Enabled(s, AnswerRanking(run, ranking))
    ensures var after := Do(s, AnswerRanking(run, ranking)); CreatorFits(after.ledgers, run, after.creators[run])
  {
    assert |ranking| > 0 ==> [ranking[0]] + ranking[1..] == ranking;
  }

  lemma LeaverFits(s: Sys, a: Action, run: RunId)
    requires Cache(s) && Enabled(s, a) && run in s.creators && CreatorFits(s.ledgers, run, s.creators[run])
    requires ByCreator(a) && a.run == run
    requires a.AnswerLock? || a.AnswerCache? || a.StoreSnapshot? || a.Fault? || a.CleanUp? || a.Crash?
    ensures CreatorFits(Do(s, a).ledgers, run, Do(s, a).creators[run])
  {
    hide Known;
  }

  lemma LooperFits(s: Sys, a: Action, run: RunId)
    requires Keys(s.ledgers) && Enabled(s, a) && run in s.creators && CreatorFits(s.ledgers, run, s.creators[run])
    requires a == LogCreation(run) || a == PlaceCharge(run) || (a.InsertRow? && a.run == run) ||
             (a.AnswerCharge? && a.run == run)
    ensures CreatorFits(Do(s, a).ledgers, run, Do(s, a).creators[run])
  {
    hide Known;
  }

  lemma FinderFits(s: Sys, run: RunId, found: Option<TxnId>)
    requires Keys(s.ledgers) && Enabled(s, AnswerFind(run, found))
    ensures var after := Do(s, AnswerFind(run, found)); CreatorFits(after.ledgers, run, after.creators[run])
  {
    if found.Some? {
      assert s.ledgers[found.value].row in History(s.ledgers[found.value]);
    }
  }

  lemma WriterFits(s: Sys, run: RunId, now: Time)
    requires Keys(s.ledgers) && run in s.creators && CreatorFits(s.ledgers, run, s.creators[run])
    requires Enabled(s, WriteState(run, now))
    ensures var after := Do(s, WriteState(run, now)); CreatorFits(after.ledgers, run, after.creators[run])
  {
    var L := Do(s, WriteState(run, now)).ledgers[s.creators[run].pc.txn];
    assert L.row in History(L);
  }

  lemma StepKeepsCreators(s: Sys, a: Action)
    requires Inv(s) && Enabled(s, a)
    ensures Creators(Do(s, a))
  {
    hide Rows, Charges, Cache, Workers, Known, Extends;
    var after := Do(s, a);
    StepGrows(s, a);
    forall run | run in after.creators
      ensures CreatorFits(after.ledgers, run, after.creators[run])
    {
      if run in s.creators && after.creators[run] != s.creators[run] {
        OnlyActorMoves(s, a, run);
        ActorFits(s, a, run);
      } else if run in s.creators {
        CreatorStays(s.ledgers, after.ledgers, run, s.creators[run]);
      }
    }
  }

  lemma StepKeepsCache(s: Sys, a: Action)
    requires Inv(s) && Enabled(s, a)
    ensures Cache(Do(s, a))
  {
    hide Rows, Keys, Charges, Workers, Moved, Allowed, WorkerWrite, CreatorWrite, Extends;
    var after := Do(s, a);
    StepGrows(s, a);
    forall e | e in after.published
      ensures Known(after.ledgers, e.key, e.snapshot)
    {
      if e in s.published {
        KnownStays(s.ledgers, after.ledgers, e.key, e.snapshot);
      } else {
        assert CreatorFits(s.ledgers, a.run, s.creators[a.run]);
      }
    }
  }

  lemma StepKeepsCharges(s: Sys, a: Action)
    requires Inv(s) && Enabled(s, a)
    ensures Charges(Do(s, a))
  {
    hide Rows, Keys, Cache, Workers, Known, Moved, Allowed, WorkerWrite, CreatorWrite;
    var after := Do(s, a);
    StepGrows(s, a);
    forall c | c in after.charges
      ensures ChargeFits(after.ledgers, c)
    {
      if c in s.charges {
        assert ChargeFits(s.ledgers, c) && Extends(s.ledgers[c.txn], after.ledgers[c.txn]);
      } else {
        assert CreatorFits(s.ledgers, a.run, s.creators[a.run]);
      }
    }
  }

  lemma StepKeepsWorkers(s: Sys, a: Action)
    requires Workers(s) && Enabled(s, a)
    ensures Workers(Do(s, a))
  {
    hide Do, Enabled, WorkerFits;
    var after := Do(s, a);
    StepGrows(s, a);
    forall w | w in after.workers
      ensures WorkerFits(after.ledgers, after.workers[w])
    {
      if w in s.workers && after.workers[w] == s.workers[w] {
        WorkerStays(s.ledgers, after.ledgers, s.workers[w]);
      } else {
        ActingWorkerFits(s, a, w);
      }
    }
  }

  lemma WorkerStays(ledgers: map<TxnId, Ledger>, after: map<TxnId, Ledger>, w: Worker)
    requires Grows(ledgers, after) && WorkerFits(ledgers, w)
    ensures WorkerFits(after, w)
  {
  }

  lemma ActingWorkerFits(s: Sys, a: Action, w: WorkerId)
    requires Enabled(s, a) && w in Do(s, a).workers
    requires w in s.workers ==> WorkerFits(s.ledgers, s.workers[w]) && Do(s, a).workers[w] != s.workers[w]
    ensures WorkerFits(Do(s, a).ledgers, Do(s, a).workers[w])
  {
    hide CreatorWrite;
  }

  lemma StepKeepsInv(s: Sys, a: Action)
    requires Inv(s) && Enabled(s, a)
    ensures Inv(Do(s, a))
  {
    StepKeepsRows(s, a);
    StepKeepsKeys(s, a);
    StepKeepsCreators(s, a);
    StepKeepsCache(s, a);
    StepKeepsCharges(s, a);
    StepKeepsWorkers(s, a);
  }

  lemma {:induction false} RunKeepsInv(states: seq<Sys>, actions: seq<Action>, i: nat)
    requires Run(states, actions) && i < |states|
    ensures Inv(states[i])
  {
    if i == 0 {
      InvHoldsAtStart();
    } else {
      RunKeepsInv(states, actions, i - 1);
      StepKeepsInv(states[i - 1], actions[i - 1]);
    }
  }

  lemma {:induction false} RunGrows(states: seq<Sys>, actions: seq<Action>, i: nat, j: nat)
    requires Run(states, actions) && i <= j < |states|
    ensures Grows(states[i].ledgers, states[j].ledgers)
  {
    hide Extends, Do, Enabled;
    if i < j {
      RunGrows(states, actions, i, j - 1);
      StepGrows(states[j - 1], actions[j - 1]);
      GrowsIsTransitive(states[i].ledgers, states[j - 1].ledgers, states[j].ledgers);
    } else {
      GrowsIsReflexive(states[i].ledgers);
    }
  }

  lemma GrowsIsReflexive(a: map<TxnId, Ledger>)
    ensures Grows(a, a)
  {
  }

  lemma GrowsIsTransitive(a: map<TxnId, Ledger>, b: map<TxnId, Ledger>, c: map<TxnId, Ledger>)
    requires Grows(a, b) && Grows(b, c)
    ensures Grows(a, c)
  {
    forall t | t in a
      ensures t in c && Extends(a[t], c[t])
    {
      assert Extends(a[t], b[t]) && Extends(b[t], c[t]);
    }
  }
}
