/** The two accounts of the services meet: what `create` and a worker's driving do without
    interference are runs of the protocol, from every reachable state. It also shows that
    the protocol's bounds are reached. */
module SoloRun {
  import opened Lifecycle
  import opened Writers
  import opened Ledger
  import opened Protocol
  import opened ProtocolInvariant
  import opened ProtocolTheorems
  import opened Payments
  import StateMachine
  import Redis
  import Reconciliation

  // ---------- Continuing a run ----------

  /** Some steps of the protocol lead from `base` to `s`. */
  ghost predicate Leads(base: Sys, s: Sys) {
    exists states: seq<Sys>, actions: seq<Action> ::
      Path(states, actions) && states[0] == base && states[|actions|] == s
  }

  lemma LeadsToItself(s: Sys)
    ensures Leads(s, s)
  {
    assert Path([s], []);
  }

  lemma After(base: Sys, s: Sys, a: Action) returns (after: Sys)
    requires Leads(base, s) && Enabled(s, a)
    ensures after == Do(s, a) && Leads(base, after)
  {
    hide Do, Enabled;
    after := Do(s, a);
    var states, actions :| Path(states, actions) && states[0] == base && states[|actions|] == s;
    assert Path(states + [after], actions + [a]);
  }

  lemma {:induction false} PathKeepsReachable(states: seq<Sys>, actions: seq<Action>, i: nat)
    requires Path(states, actions) && i < |states| && Reachable(states[0])
    ensures Reachable(states[i])
  {
    hide Do, Enabled, Reachable;
    if i == 0 {
    } else {
      PathKeepsReachable(states, actions, i - 1);
      NextIsReachable(states[i - 1], actions[i - 1]);
    }
  }

  lemma LeadsKeepsReachable(base: Sys, s: Sys)
    requires Reachable(base) && Leads(base, s)
    ensures Reachable(s)
  {
    hide Reachable, Do, Enabled;
    var states, actions :| Path(states, actions) && states[0] == base && states[|actions|] == s;
    PathKeepsReachable(states, actions, |actions|);
  }

  // ---------- One run beside everything else ----------

  /** `s` is `base` but for run `run`, at `pc`, and the row `id` that it owns. */
  predicate Beside(base: Sys, s: Sys, run: RunId, dto: CreateTransactionDto, id: TxnId, pc: CreatorPc) {
    && s.creators == base.creators[run := Creator(dto, pc)]
    && s.workers == base.workers
    && id in s.ledgers && s.ledgers == base.ledgers[id := s.ledgers[id]]
    && s.ledgers[id].owner == run
    && base.charges <= s.charges
  }

  lemma WriteAlone(base: Sys, s: Sys, run: RunId, dto: CreateTransactionDto, id: TxnId, loop: Loop, now: Time)
    returns (after: Sys)
    requires Leads(base, s) && Beside(base, s, run, dto, id, InLoop(id, loop)) && Writes(loop.stage)
    requires Allowed(s.ledgers[id].row.currentState, CreatorWrite(loop.stage, loop.gateway).toState)
    ensures Leads(base, after) && after.charges == s.charges && after.published == s.published
    ensures var M := Moved(s.ledgers[id], CreatorWrite(loop.stage, loop.gateway), now);
            && after.ledgers == s.ledgers[id := M]
            && Beside(base, after, run, dto, id,
                      match AfterWrite(loop)
                      case Some(next) => InLoop(id, next)
                      case None => if loop.stage.Retry? then Cleanup else Publish(M.row))
  {
    hide Leads;
    after := After(base, s, WriteState(run, now));
  }

  /** The two transitions before the charge call. */
  lemma BeginAlone(base: Sys, s: Sys, run: RunId, dto: CreateTransactionDto, id: TxnId, loop: Loop, now: Time)
    returns (after: Sys)
    requires Leads(base, s) && Beside(base, s, run, dto, id, InLoop(id, loop)) && loop.stage == Route
    requires s.ledgers[id].row.id == id
    requires s.ledgers[id].row.currentState == INITIATED || s.ledgers[id].row.currentState == RETRY_PENDING
    ensures Leads(base, after) && after.published == s.published && after.charges == s.charges
    ensures Beside(base, after, run, dto, id, InLoop(id, loop.(stage := Call)))
    ensures var before := s.ledgers[id];
            && after.ledgers[id].row ==
               before.row.(currentState := PROCESSING, selectedGateway := Some(loop.gateway),
                           attemptCount := before.row.attemptCount + 1)
            && after.ledgers[id].audit == before.audit + AttemptRows(id, before.row.currentState, loop.gateway)
  {
    hide Leads;
    var routed := WriteAlone(base, s, run, dto, id, loop, now);
    after := WriteAlone(base, routed, run, dto, id, loop.(stage := Process), now);
  }

  /** The charge call and its answer. */
  lemma CallAlone(base: Sys, s: Sys, run: RunId, dto: CreateTransactionDto, id: TxnId, loop: Loop, answer: Outcome)
    returns (after: Sys)
    requires Leads(base, s) && Beside(base, s, run, dto, id, InLoop(id, loop)) && loop.stage == Call
    ensures Leads(base, after) && after.published == s.published && after.ledgers == s.ledgers
    ensures Beside(base, after, run, dto, id, InLoop(id, loop.(stage := AfterCall(answer, loop.rest))))
    ensures ChargedFor(after.charges, id) == ChargedFor(s.charges, id) + [loop.gateway]
  {
    hide Leads;
    var placed := PlaceAlone(base, s, run, dto, id, loop);
    after := After(base, placed, AnswerCharge(run, answer));
  }

  lemma PlaceAlone(base: Sys, s: Sys, run: RunId, dto: CreateTransactionDto, id: TxnId, loop: Loop)
    returns (after: Sys)
    requires Leads(base, s) && Beside(base, s, run, dto, id, InLoop(id, loop)) && loop.stage == Call
    ensures Leads(base, after) && after.published == s.published && after.ledgers == s.ledgers
    ensures Beside(base, after, run, dto, id, InLoop(id, loop.(stage := Await)))
    ensures ChargedFor(after.charges, id) == ChargedFor(s.charges, id) + [loop.gateway]
  {
    hide Leads, ChargedFor, Moved, KeyTaken, FindAnswers, CreatorWrite, WorkerWrite;
    after := After(base, s, PlaceCharge(run));
    ChargedForAppend(s.charges, Charge(run, id, dto.idempotencyKey, loop.gateway), id);
  }

  /** One pass of the loop, as `Pass` performs it. */
  lemma PassAlone(base: Sys, s: Sys, run: RunId, dto: CreateTransactionDto, id: TxnId, loop: Loop, answer: Outcome,
                  now: Time) returns (after: Sys)
    requires Leads(base, s) && Beside(base, s, run, dto, id, InLoop(id, loop)) && loop.stage == Route
    requires s.ledgers[id].row.id == id
    requires s.ledgers[id].row.currentState == INITIATED || s.ledgers[id].row.currentState == RETRY_PENDING
    ensures Leads(base, after) && after.published == s.published
    ensures var before, last := s.ledgers[id], |loop.rest| == 0;
            && id in after.ledgers
            && after.ledgers[id].row == PassRow(before.row, loop.gateway, answer, last)
            && after.ledgers[id].audit ==
               before.audit + PassRows(id, before.row.currentState, loop.gateway, answer, last)
            && Beside(base, after, run, dto, id,
                      if answer.Charged? || last then Publish(after.ledgers[id].row)
                      else InLoop(id, Loop(loop.rest[0], loop.rest[1..], Route)))
    ensures ChargedFor(after.charges, id) == ChargedFor(s.charges, id) + [loop.gateway]
  {
    hide Leads, ChargedFor, Rank;
    var begun := BeginAlone(base, s, run, dto, id, loop, now);
    var called := CallAlone(base, begun, run, dto, id, loop.(stage := Call), answer);
    after := WriteAlone(base, called, run, dto, id, loop.(stage := AfterCall(answer, loop.rest)), now);
  }

  predicate AtHead(base: Sys, s: Sys, run: RunId, dto: CreateTransactionDto, id: TxnId, plan: seq<GatewayProvider>,
                   answers: nat -> Outcome, k: nat)
    requires k < |plan| && forall i: nat :: i < k ==> answers(i).Declined?
  {
    && Beside(base, s, run, dto, id, InLoop(id, Loop(plan[k], plan[k + 1..], Route)))
    && s.published == base.published
    && s.ledgers[id].row == RowAtHead(NewTransaction(id, dto, plan[0], plan[1..]), plan, k)
    && s.ledgers[id].audit == [CreatedLog(id, plan[0])] + DeclinedRows(id, plan, answers, k)
    && ChargedFor(s.charges, id) == plan[..k]
  }

  /** Neither the run, nor the row id, nor the client's key has been used. */
  predicate Unused(base: Sys, run: RunId, id: TxnId, key: string) {
    run !in base.creators && id !in base.ledgers && !KeyTaken(base.ledgers, key)
  }

  /** `s` is `base` but for the run, at `pc`, and for what it has stored in Redis. */
  predicate OnlyRan(base: Sys, s: Sys, run: RunId, dto: CreateTransactionDto, pc: CreatorPc) {
    && s.creators == base.creators[run := Creator(dto, pc)]
    && s.workers == base.workers && s.ledgers == base.ledgers && s.charges == base.charges
    && base.published <= s.published
  }

  lemma LockAlone(base: Sys, run: RunId, dto: CreateTransactionDto, granted: bool) returns (s: Sys)
    requires run !in base.creators
    ensures Leads(base, s) && OnlyRan(base, s, run, dto, if granted then DoubleCheck else ReadCache)
    ensures s.published == base.published
  {
    hide Leads;
    LeadsToItself(base);
    var s1 := After(base, base, Begin(run, dto));
    s := After(base, s1, AnswerLock(run, granted));
  }

  lemma RankAlone(base: Sys, run: RunId, dto: CreateTransactionDto, plan: seq<GatewayProvider>) returns (s: Sys)
    requires run !in base.creators && !KeyTaken(base.ledgers, dto.idempotencyKey) && Distinct(plan)
    ensures Leads(base, s)
    ensures OnlyRan(base, s, run, dto, if plan == [] then Cleanup else Insert(plan[0], plan[1..]))
    ensures s.published == base.published
  {
    hide Leads, KeyTaken;
    var locked := LockAlone(base, run, dto, true);
    var checked := After(base, locked, AnswerFind(run, None));
    s := After(base, checked, AnswerRanking(run, plan));
  }

  lemma StartAlone(base: Sys, run: RunId, dto: CreateTransactionDto, id: TxnId, plan: seq<GatewayProvider>,
                   answers: nat -> Outcome) returns (s: Sys)
    requires Reachable(base) && Unused(base, run, id, dto.idempotencyKey) && |plan| > 0 && Distinct(plan)
    ensures Leads(base, s) && AtHead(base, s, run, dto, id, plan, answers, 0)
  {
    hide Leads, Reachable, KeyTaken, ChargedFor;
    NoChargesFor(base, id);
    var ranked := RankAlone(base, run, dto, plan);
    var inserted := After(base, ranked, InsertRow(run, id));
    s := After(base, inserted, LogCreation(run));
    assert plan[..0] == [];
  }

  lemma NoChargesFor(base: Sys, id: TxnId)
    requires Reachable(base) && id !in base.ledgers
    ensures ChargedFor(base.charges, id) == []
  {
    hide Reachable, Sane;
    ReachableSatisfiesInv(base);
    forall c | c in base.charges
      ensures c.txn in base.ledgers
    {
      assert ChargeFits(base.ledgers, c);
    }
    NoChargesYet(base.ledgers, base.charges, id);
  }

  lemma {:induction false} HeadsAreReached(base: Sys, run: RunId, dto: CreateTransactionDto, id: TxnId,
                                           plan: seq<GatewayProvider>, answers: nat -> Outcome, k: nat)
    returns (s: Sys)
    requires Reachable(base) && Unused(base, run, id, dto.idempotencyKey)
    requires Distinct(plan) && k < |plan| && forall i: nat :: i < k ==> answers(i).Declined?
    ensures Leads(base, s) && AtHead(base, s, run, dto, id, plan, answers, k)
  {
    hide Reachable, Leads, PassRow, PassRows, RowAtHead, DeclinedRows, FailoverRow, FailoverRows, Decides;
    if k == 0 {
      s := StartAlone(base, run, dto, id, plan, answers);
    } else {
      var before := HeadsAreReached(base, run, dto, id, plan, answers, k - 1);
      HeadStep(NewTransaction(id, dto, plan[0], plan[1..]), plan, answers, k - 1);
      s := PassAlone(base, before, run, dto, id, Loop(plan[k - 1], plan[k..], Route), answers(k - 1), 0);
      assert plan[k..][1..] == plan[k + 1..];
      assert plan[..k] == plan[..k - 1] + [plan[k - 1]];
    }
  }

  /** From every reachable state, for every duplicate-free ranking and all answers of the
      gateways, the protocol goes on with a run in which `create` returns the row, leaves
      the audit rows and makes the charge calls that the sequential method computes. */
  lemma FailoverIsAProtocolRun(base: Sys, run: RunId, dto: CreateTransactionDto, id: TxnId,
                               plan: seq<GatewayProvider>, answers: nat -> Outcome, d: nat)
    returns (s: Sys)
    requires Reachable(base) && Unused(base, run, id, dto.idempotencyKey)
    requires Distinct(plan) && Decides(answers, |plan|, d)
    ensures var row := FailoverRow(NewTransaction(id, dto, plan[0], plan[1..]), plan, answers, d);
            && Leads(base, s) && Beside(base, s, run, dto, id, Returned(row))
            && s.ledgers[id].row == row
            && s.ledgers[id].audit == [CreatedLog(id, plan[0])] + FailoverRows(id, plan, answers, d)
            && ChargedFor(s.charges, id) == plan[..d + 1]
            && s.published == base.published + {CacheEntry(dto.idempotencyKey, row)}
  {
    hide Reachable, Leads, PassRow, PassRows, RowAtHead, DeclinedRows, FailoverRow, FailoverRows, ChargedFor;
    HeadStep(NewTransaction(id, dto, plan[0], plan[1..]), plan, answers, d);
    var head := HeadsAreReached(base, run, dto, id, plan, answers, d);
    var done := PassAlone(base, head, run, dto, id, Loop(plan[d], plan[d + 1..], Route), answers(d), 0);
    s := After(base, done, StoreSnapshot(run));
    assert plan[..d + 1] == plan[..d] + [plan[d]];
  }

  // ---------- Tables and ledgers ----------

  /** The rows of the audit log that belong to one transaction. */
  function RowsOf(log: seq<AuditLog>, t: TxnId): seq<AuditLog> {
    if log == [] then []
    else RowsOf(log[..|log| - 1], t) + if log[|log| - 1].transactionId == t then [log[|log| - 1]] else []
  }

  lemma {:induction false} RowsOfConcat(log: seq<AuditLog>, more: seq<AuditLog>, t: TxnId)
    ensures RowsOf(log + more, t) == RowsOf(log, t) + RowsOf(more, t)
  {
    if more == [] {
      assert log + more == log;
    } else {
      RowsOfConcat(log, more[..|more| - 1], t);
      assert (log + more)[..|log + more| - 1] == log + more[..|more| - 1];
    }
  }

  lemma {:induction false} RowsOfOne(rows: seq<AuditLog>, id: TxnId, t: TxnId)
    requires forall l <- rows :: l.transactionId == id
    ensures RowsOf(rows, t) == if t == id then rows else []
  {
    if rows == [] {
    } else {
      RowsOfOne(rows[..|rows| - 1], id, t);
      assert rows == rows[..|rows| - 1] + [rows[|rows| - 1]];
    }
  }

  /** The tables hold what the ledgers tell. */
  ghost predicate Shows(s: Sys, tables: StateMachine.Tables) {
    && tables.transactions == (map t | t in s.ledgers :: s.ledgers[t].row)
    && forall t :: RowsOf(tables.auditLog, t) == if t in s.ledgers then s.ledgers[t].audit else []
  }

  lemma KeysAgree(s: Sys, tables: StateMachine.Tables, key: string)
    requires Shows(s, tables)
    ensures StateMachine.HasKey(tables.transactions, key) <==> KeyTaken(s.ledgers, key)
  {
    hide RowsOf;
    if StateMachine.HasKey(tables.transactions, key) {
      var t :| t in tables.transactions && tables.transactions[t].idempotencyKey == key;
      assert t in s.ledgers && s.ledgers[t].row.idempotencyKey == key;
    }
    if KeyTaken(s.ledgers, key) {
      var t :| t in s.ledgers && s.ledgers[t].row.idempotencyKey == key;
      assert t in tables.transactions && tables.transactions[t].idempotencyKey == key;
    }
  }

  /** `create` without interference, whatever it answers, is a run of the protocol from any
      reachable state: the run ends with that answer, and the ledgers show the tables the
      method leaves. */
  lemma CreateAloneIsAProtocolRun(
      base: Sys, run: RunId, dto: CreateTransactionDto, id: TxnId, granted: bool, seen: Option<Redis.RedisValue>,
      plan: seq<GatewayProvider>, answers: nat -> Outcome, d: nat,
      before: StateMachine.Tables, after: StateMachine.Tables, r: Result<Transaction, CreateError>)
    returns (s: Sys)
    requires Reachable(base) && run !in base.creators && id !in base.ledgers && Shows(base, before)
    requires seen.Some? && seen.value.CompletedWith? ==>
               CacheEntry(dto.idempotencyKey, seen.value.transaction) in base.published
    requires Distinct(plan) && Responds(dto, id, granted, seen, plan, answers, d, before, after, r)
    ensures Leads(base, s) && Shows(s, after)
    ensures s.creators == base.creators[run := Creator(dto, if r.Ok? then Returned(r.value) else Threw)]
    ensures r.Ok? ==> CacheEntry(dto.idempotencyKey, r.value) in s.published
    ensures s.workers == base.workers && base.charges <= s.charges && base.published <= s.published
  {
    hide Reachable, Leads, Shows, FailoverRow, FailoverRows, Decides, StateMachine.HasKey, KeyTaken;
    KeysAgree(base, before, dto.idempotencyKey);
    if !granted && seen.Some? && !seen.value.OpenMark? {
      s := AnsweredFromCache(base, run, dto, seen.value);
      ShowsTheSame(base, s, before);
    } else if KeyTaken(base.ledgers, dto.idempotencyKey) {
      s := AnsweredFromTable(base, run, dto, granted, before, r.value);
      ShowsTheSame(base, s, before);
    } else if !granted {
      s := RefusedAlone(base, run, dto);
      ShowsTheSame(base, s, before);
    } else if plan == [] {
      s := NoGatewayAlone(base, run, dto);
      ShowsTheSame(base, s, before);
    } else {
      s := FailoverIsAProtocolRun(base, run, dto, id, plan, answers, d);
      FailoverShows(base, s, run, dto, id, plan, answers, d, before, after);
    }
  }

  lemma AnsweredFromCache(base: Sys, run: RunId, dto: CreateTransactionDto, seen: Redis.RedisValue) returns (s: Sys)
    requires run !in base.creators && !seen.OpenMark?
    requires seen.CompletedWith? ==> CacheEntry(dto.idempotencyKey, seen.transaction) in base.published
    ensures Leads(base, s)
    ensures OnlyRan(base, s, run, dto, if seen.CompletedWith? then Returned(seen.transaction) else Threw)
  {
    hide Leads;
    var refused := LockAlone(base, run, dto, false);
    s := After(base, refused,
               AnswerCache(run, if seen.CompletedWith? then Completed(seen.transaction) else BeingProcessed));
  }

  lemma ShownRow(base: Sys, tables: StateMachine.Tables, key: string, row: Transaction) returns (t: TxnId)
    requires Shows(base, tables) && Replayed(key, tables, tables, Ok(row))
    ensures t in base.ledgers && base.ledgers[t].row == row && row.idempotencyKey == key
  {
    t :| t in tables.transactions && tables.transactions[t] == row;
  }

  /** The key has a row: found after a refusal, or by the check after a grant. */
  lemma AnsweredFromTable(base: Sys, run: RunId, dto: CreateTransactionDto, granted: bool,
                          tables: StateMachine.Tables, row: Transaction) returns (s: Sys)
    requires run !in base.creators && Shows(base, tables)
    requires Replayed(dto.idempotencyKey, tables, tables, Ok(row))
    ensures Leads(base, s) && OnlyRan(base, s, run, dto, Returned(row))
    ensures CacheEntry(dto.idempotencyKey, row) in s.published
  {
    hide Leads, Shows;
    var t := ShownRow(base, tables, dto.idempotencyKey, row);
    var s1 := LockAlone(base, run, dto, granted);
    if !granted {
      s1 := After(base, s1, AnswerCache(run, Missing));
    }
    var s2 := After(base, s1, AnswerFind(run, Some(t)));
    s := After(base, s2, StoreSnapshot(run));
  }

  lemma RefusedAlone(base: Sys, run: RunId, dto: CreateTransactionDto) returns (s: Sys)
    requires run !in base.creators && !KeyTaken(base.ledgers, dto.idempotencyKey)
    ensures Leads(base, s) && OnlyRan(base, s, run, dto, Threw)
  {
    hide Leads, KeyTaken;
    var s1 := LockAlone(base, run, dto, false);
    var s2 := After(base, s1, AnswerCache(run, Missing));
    s := After(base, s2, AnswerFind(run, None));
  }

  lemma NoGatewayAlone(base: Sys, run: RunId, dto: CreateTransactionDto) returns (s: Sys)
    requires run !in base.creators && !KeyTaken(base.ledgers, dto.idempotencyKey)
    ensures Leads(base, s) && OnlyRan(base, s, run, dto, Threw)
  {
    hide Leads, KeyTaken;
    var ranked := RankAlone(base, run, dto, []);
    s := After(base, ranked, CleanUp(run));
  }

  lemma ShowsTheSame(base: Sys, s: Sys, tables: StateMachine.Tables)
    requires Shows(base, tables) && s.ledgers == base.ledgers
    ensures Shows(s, tables)
  {
  }

  lemma FailoverShows(
      base: Sys, s: Sys, run: RunId, dto: CreateTransactionDto, id: TxnId, plan: seq<GatewayProvider>,
      answers: nat -> Outcome, d: nat, before: StateMachine.Tables, after: StateMachine.Tables)
    requires Shows(base, before) && id !in base.ledgers && Decides(answers, |plan|, d)
    requires var row := FailoverRow(NewTransaction(id, dto, plan[0], plan[1..]), plan, answers, d);
             && Beside(base, s, run, dto, id, Returned(row)) && s.ledgers[id].row == row
             && s.ledgers[id].audit == [CreatedLog(id, plan[0])] + FailoverRows(id, plan, answers, d)
             && after.transactions == before.transactions[id := row]
             && after.auditLog == before.auditLog + [CreatedLog(id, plan[0])] + FailoverRows(id, plan, answers, d)
    ensures Shows(s, after)
  {
    hide FailoverRow, FailoverRows, RowsOf;
    FailoverRowsAreMoves(id, plan, answers, d);
    var rows := [CreatedLog(id, plan[0])] + FailoverRows(id, plan, answers, d);
    assert after.auditLog == before.auditLog + rows;
    forall t
      ensures RowsOf(after.auditLog, t) == if t in s.ledgers then s.ledgers[t].audit else []
    {
      RowsOfConcat(before.auditLog, rows, t);
      RowsOfOne(rows, id, t);
    }
  }

  // ---------- Driving is pushing ----------

  /** What one step of driving does. */
  lemma PushMeans(s: Sys, w: WorkerId, now: Time)
    requires w in s.workers && s.workers[w].pc.Drive? && s.workers[w].pc.txn in s.ledgers
    ensures var after := Do(s, Push(w, now));
            && after.creators == s.creators && after.charges == s.charges && after.published == s.published
            && var pc := s.workers[w].pc;
               var L := s.ledgers[pc.txn];
               var write := WorkerWrite(pc.local, pc.gateway, pc.gatewayTxnId);
               && pc.txn in after.ledgers && after.ledgers == s.ledgers[pc.txn := after.ledgers[pc.txn]]
               && var M := after.ledgers[pc.txn];
                  match write
                  case None => M == L && after.workers == s.workers[w := s.workers[w].(pc := Mark(Some(pc.txn)))]
                  case Some(write) =>
                    match Transit(L.row, write.toState, write.metadata, now)
                    case Err(_) => M == L && after.workers == s.workers[w := s.workers[w].(pc := WorkerThrew)]
                    case Ok(written) =>
                      && M.row == written.row && M.audit == L.audit + [written.log]
                      && after.workers == s.workers[w := s.workers[w].(pc := pc.(local := write.toState))]
  {
    hide WorkerWrite;
  }

  lemma TransitIsAllowed(t: Transaction, write: Option<Write>, now: Time)
    ensures write.Some? ==>
              var w := write.value;
              Transit(t, w.toState, w.metadata, now).Ok? <==> Allowed(t.currentState, w.toState)
  {
  }

  /** What `driveToReconciled` does alone, from whatever state the worker holds, is a
      sequence of `Push` steps; it throws exactly when `Drive` is refused. */
  lemma {:induction false} DriveIsAProtocolRun(base: Sys, s: Sys, w: WorkerId, now: Time) returns (after: Sys)
    requires Leads(base, s) && w in s.workers && s.workers[w].pc.Drive? && s.workers[w].pc.txn in s.ledgers
    ensures Leads(base, after)
    ensures var pc := s.workers[w].pc;
            var L := s.ledgers[pc.txn];
            var driven := Reconciliation.Drive(pc.local, L.row, pc.gateway, pc.gatewayTxnId, now);
            && pc.txn in after.ledgers && after.ledgers == s.ledgers[pc.txn := after.ledgers[pc.txn]]
            && after.ledgers[pc.txn].row == driven.row && after.ledgers[pc.txn].audit == L.audit + driven.rows
            && after.workers ==
               s.workers[w := s.workers[w].(pc := if driven.ok then Mark(Some(pc.txn)) else WorkerThrew)]
            && after.creators == s.creators && after.charges == s.charges && after.published == s.published
    decreases 4 - Rank(s.workers[w].pc.local)
  {
    hide Leads, Transit, Allowed, Do, WorkerWrite, Reconciliation.Drive;
    var pc := s.workers[w].pc;
    var write := WorkerWrite(pc.local, pc.gateway, pc.gatewayTxnId);
    after := After(base, s, Push(w, now));
    PushMeans(s, w, now);
    TransitIsAllowed(s.ledgers[pc.txn].row, write, now);
    Reconciliation.DrivingClimbs(pc.local, pc.gateway, pc.gatewayTxnId);
    Reconciliation.DriveGoesOn(pc.local, s.ledgers[pc.txn].row, pc.gateway, pc.gatewayTxnId, now);
    if write.None? || !Allowed(s.ledgers[pc.txn].row.currentState, write.value.toState) {
    } else {
      after := DriveIsAProtocolRun(base, after, w, now);
    }
  }

  // ---------- The story of a failover ----------

  lemma {:induction false} MovesAfterNote(note: AuditLog, rows: seq<AuditLog>)
    requires note.fromState.None? && forall l <- rows :: l.fromState.Some?
    ensures Moves([note] + rows) == rows
  {
    hide Moves;
    if rows == [] {
      NothingMoves();
      MovesOfAppend([], note);
      assert [note] + rows == [] + [note];
    } else {
      var n := |rows| - 1;
      MovesAfterNote(note, rows[..n]);
      MovesOfAppend([note] + rows[..n], rows[n]);
      assert [note] + rows == ([note] + rows[..n]) + [rows[n]];
      assert rows == rows[..n] + [rows[n]];
    }
  }

  lemma NothingMoves()
    ensures Moves([]) == []
  {
  }

  lemma PassRowsAreMoves(id: TxnId, start: TransactionState, g: GatewayProvider, answer: Outcome, last: bool)
    ensures forall l <- PassRows(id, start, g, answer, last) ::
              l.fromState.Some? && !FromWebhook(l.reason) && l.transactionId == id
    ensures |PassRows(id, start, g, answer, last)| == 3
  {
  }

  lemma {:induction false} DeclinedRowsAreMoves(id: TxnId, plan: seq<GatewayProvider>, answers: nat -> Outcome, k: nat)
    requires k <= |plan| && forall i: nat :: i < k ==> answers(i).Declined?
    ensures forall l <- DeclinedRows(id, plan, answers, k) ::
              l.fromState.Some? && !FromWebhook(l.reason) && l.transactionId == id
    ensures |DeclinedRows(id, plan, answers, k)| == 3 * k
  {
    hide PassRows;
    if k == 0 {
    } else {
      PassRowsAreMoves(id, StartOf(k - 1), plan[k - 1], answers(k - 1), false);
      DeclinedRowsAreMoves(id, plan, answers, k - 1);
    }
  }

  lemma FailoverRowsAreMoves(id: TxnId, plan: seq<GatewayProvider>, answers: nat -> Outcome, d: nat)
    requires Decides(answers, |plan|, d)
    ensures forall l <- FailoverRows(id, plan, answers, d) ::
              l.fromState.Some? && !FromWebhook(l.reason) && l.transactionId == id
    ensures |FailoverRows(id, plan, answers, d)| == 3 * (d + 1)
  {
    hide DeclinedRows, PassRows;
    PassRowsAreMoves(id, StartOf(d), plan[d], answers(d), d == |plan| - 1);
    DeclinedRowsAreMoves(id, plan, answers, d);
  }

  /** The audit rows of a failover tell its whole story: an unbroken walk to the row's
      state, three rows and one attempt for each gateway tried, and a retry for each but
      the last. */
  lemma FailoverRowsTellTheStory(dto: CreateTransactionDto, id: TxnId, plan: seq<GatewayProvider>,
                                 answers: nat -> Outcome, d: nat)
    requires Distinct(plan) && Decides(answers, |plan|, d)
    ensures var rows := FailoverRows(id, plan, answers, d);
            var row := FailoverRow(NewTransaction(id, dto, plan[0], plan[1..]), plan, answers, d);
            && Walk(INITIATED, rows, row.currentState)
            && Replay(Some(plan[0]), rows) == Observed(row)
            && |rows| == 3 * (d + 1)
            && Count(rows, PROCESSING) == d + 1 && Count(rows, RETRY_PENDING) == d
            && WebhookRows(rows) == 0
  {
    hide Sane, Reachable, FailoverRows, Moves, Walk, Replay, Count, WebhookRows, ChargedFor;
    StartIsReachable();
    var s := FailoverIsAProtocolRun(START, 0, dto, id, plan, answers, d);
    LeadsKeepsReachable(START, s);
    var rows := FailoverRows(id, plan, answers, d);
    FailoverRowsAreMoves(id, plan, answers, d);
    MovesAfterNote(CreatedLog(id, plan[0]), rows);
    StoryOf(s, id);
    NoWebhookRows(rows);
    BornWithPrimary(s, id, plan, d + 1);
  }

  lemma NoWebhookRows(moves: seq<AuditLog>)
    requires forall l <- moves :: !FromWebhook(l.reason)
    ensures WebhookRows(moves) == 0
  {
    if moves == [] {
    } else {
      assert moves[|moves| - 1] in moves;
      NoWebhookRows(moves[..|moves| - 1]);
    }
  }

  lemma BornWithPrimary(s: Sys, id: TxnId, plan: seq<GatewayProvider>, n: nat)
    requires Reachable(s) && id in s.ledgers && 0 < n <= |plan| && ChargedFor(s.charges, id) == plan[..n]
    ensures Born(s.ledgers[id]).selectedGateway == Some(plan[0])
  {
    ReachableRow(s, id);
    assert Plan(s.ledgers[id])[..n][0] == plan[..n][0];
  }

  lemma StoryOf(s: Sys, id: TxnId)
    requires Reachable(s) && id in s.ledgers
    ensures var L := s.ledgers[id];
            var moves := Moves(L.audit);
            && Born(L).selectedGateway.Some?
            && Walk(INITIATED, moves, L.row.currentState)
            && Replay(Born(L).selectedGateway, moves) == Observed(L.row)
            && |moves| == 3 * Count(moves, RETRY_PENDING) + Rank(L.row.currentState)
            && L.row.attemptCount == Count(moves, PROCESSING)
  {
    hide Walk, Replay, Moves, Count;
    ReachableRow(s, id);
    AuditReplaysTheRow(s, id);
  }

  lemma StartIsReachable()
    ensures Reachable(START)
  {
    assert Run([START], []) && [START][0] == START;
  }

  /** From every reachable state, with every ranking, the attempt bound can be reached: all
      gateways decline. */
  lemma AttemptBoundIsReached(
      base: Sys, run: RunId, dto: CreateTransactionDto, id: TxnId, plan: seq<GatewayProvider>)
    returns (s: Sys)
    requires Reachable(base) && Unused(base, run, id, dto.idempotencyKey) && Distinct(plan) && |plan| > 0
    ensures Leads(base, s) && id in s.ledgers
    ensures s.ledgers[id].row.currentState == FAILED
    ensures s.ledgers[id].row.fallbackGateways == plan[1..]
    ensures s.ledgers[id].row.attemptCount == 1 + |s.ledgers[id].row.fallbackGateways|
  {
    s := FailoverIsAProtocolRun(base, run, dto, id, plan, (i: nat) => Declined(""), |plan| - 1);
  }
}
