/** The shared-state protocol: any number of `create` runs and webhook workers stepping
    the same rows. Each database transaction, insert, find, charge call and Redis
    operation is one atomic step; every run may throw or crash between any two steps.

    Redis is adversarial. SET NX is granted or refused at will, and GET answers nothing,
    the processing mark, or any snapshot some run ever stored under the key. This covers
    expiry, eviction, deletion by another run and the switch to in-memory stores.

    Line numbers below refer to src/transactions/transactions.service.ts. */
module Protocol {
  import opened Lifecycle
  import opened Writers
  import opened Ledger

  type RunId = nat
  type WorkerId = nat

  datatype CreatorPc =
    | Lock                                      // SET NX on the idempotency key
    | ReadCache                                 // refused: GET
    | FindAfterRefusal                          // refused and nothing usable cached: find the row
    | DoubleCheck                               // granted: find the row
    | RankGateways
    | Insert(primary: GatewayProvider, fallbacks: seq<GatewayProvider>)
    | InLoop(txn: TxnId, loop: Loop)
    | Publish(snapshot: Transaction)            // SET completed, then return the snapshot
    | Cleanup                                   // the catch block: DEL, then rethrow
    | Returned(snapshot: Transaction)
    | Threw
    | Crashed

  datatype Creator = Creator(dto: CreateTransactionDto, pc: CreatorPc)

  datatype WorkerPc =
    | Load                                      // find the event record
    | Lookup(gateway: GatewayProvider, gatewayTxnId: string)
    | Drive(txn: TxnId, gateway: GatewayProvider, gatewayTxnId: string, local: TransactionState)
    | Mark(matched: Option<TxnId>)              // save the event as processed
    | Finished
    | WorkerThrew
    | WorkerCrashed

  datatype Worker = Worker(record: RecordId, pc: WorkerPc)

  /** One call of an adapter's `charge`. */
  datatype Charge = Charge(run: RunId, txn: TxnId, key: string, gateway: GatewayProvider)

  datatype CacheEntry = CacheEntry(key: string, snapshot: Transaction)

  datatype CacheAnswer = Missing | BeingProcessed | Completed(snapshot: Transaction)

  datatype LoadAnswer =
    | NoRecord
    | AlreadyProcessed
    | NoGatewayTxnId
    | Extracted(gateway: GatewayProvider, gatewayTxnId: string)

  datatype Sys = Sys(
    ledgers: map<TxnId, Ledger>,
    creators: map<RunId, Creator>,
    workers: map<WorkerId, Worker>,
    charges: seq<Charge>,
    published: set<CacheEntry>)

  const START := Sys(map[], map[], map[], [], {})

  datatype Action =
    | Begin(run: RunId, dto: CreateTransactionDto)
    | AnswerLock(run: RunId, granted: bool)
    | AnswerCache(run: RunId, answer: CacheAnswer)
    | AnswerFind(run: RunId, found: Option<TxnId>)
    | AnswerRanking(run: RunId, ranking: seq<GatewayProvider>)
    | InsertRow(run: RunId, id: TxnId)
    | LogCreation(run: RunId)
    | WriteState(run: RunId, now: Time)
    | PlaceCharge(run: RunId)
    | AnswerCharge(run: RunId, outcome: Outcome)
    | StoreSnapshot(run: RunId)
    | Fault(run: RunId)                         // whatever the run awaits throws
    | CleanUp(run: RunId)
    | Crash(run: RunId)
    | Spawn(worker: WorkerId, record: RecordId)
    | AnswerLoad(worker: WorkerId, load: LoadAnswer)
    | AnswerLookup(worker: WorkerId, found: Option<TxnId>)
    | Push(worker: WorkerId, now: Time)
    | MarkProcessed(worker: WorkerId)
    | WorkerFault(worker: WorkerId)
    | WorkerCrash(worker: WorkerId)

  predicate KeyTaken(ledgers: map<TxnId, Ledger>, key: string) {
    exists t :: t in ledgers && ledgers[t].row.idempotencyKey == key
  }

  /** `findOne` by idempotency key. */
  predicate FindAnswers(ledgers: map<TxnId, Ledger>, key: string, found: Option<TxnId>) {
    match found
    case Some(t) => t in ledgers && ledgers[t].row.idempotencyKey == key
    case None => !KeyTaken(ledgers, key)
  }

  /** Where an exception reaches the catch block. A run that publishes may still have
      the statistics update of line 198 before it. */
  predicate InTry(pc: CreatorPc) {
    pc.DoubleCheck? || pc.RankGateways? || pc.Insert? || pc.InLoop? || pc.Publish?
  }


  predicate Enabled(s: Sys, a: Action) {
    match a
    case Begin(run, _) => run !in s.creators
    case AnswerLock(run, _) => run in s.creators && s.creators[run].pc.Lock?
    case AnswerCache(run, answer) =>
      && run in s.creators && s.creators[run].pc.ReadCache?
      && (answer.Completed? ==> CacheEntry(s.creators[run].dto.idempotencyKey, answer.snapshot) in s.published)
    case AnswerFind(run, found) =>
      && run in s.creators && (s.creators[run].pc.FindAfterRefusal? || s.creators[run].pc.DoubleCheck?)
      && FindAnswers(s.ledgers, s.creators[run].dto.idempotencyKey, found)
    case AnswerRanking(run, ranking) =>
      run in s.creators && s.creators[run].pc.RankGateways? && Distinct(ranking)
    case InsertRow(run, id) => run in s.creators && s.creators[run].pc.Insert? && id !in s.ledgers
    case LogCreation(run) => AtStage(s, run) && s.creators[run].pc.loop.stage.LogCreated?
    case WriteState(run, _) => AtStage(s, run) && Writes(s.creators[run].pc.loop.stage)
    case PlaceCharge(run) => AtStage(s, run) && s.creators[run].pc.loop.stage.Call?
    case AnswerCharge(run, _) => AtStage(s, run) && s.creators[run].pc.loop.stage.Await?
    case StoreSnapshot(run) => run in s.creators && s.creators[run].pc.Publish?
    case Fault(run) => run in s.creators && (InTry(s.creators[run].pc) || s.creators[run].pc.FindAfterRefusal?)
    case CleanUp(run) => run in s.creators && s.creators[run].pc.Cleanup?
    case Crash(run) =>
      run in s.creators && !s.creators[run].pc.Returned? && !s.creators[run].pc.Threw?
    case Spawn(w, _) => w !in s.workers
    case AnswerLoad(w, _) => w in s.workers && s.workers[w].pc.Load?
    case AnswerLookup(w, found) =>
      w in s.workers && s.workers[w].pc.Lookup? && (found.Some? ==> found.value in s.ledgers)
    case Push(w, _) => w in s.workers && s.workers[w].pc.Drive? && s.workers[w].pc.txn in s.ledgers
    case MarkProcessed(w) => w in s.workers && s.workers[w].pc.Mark?
    case WorkerFault(w) =>
      w in s.workers && (s.workers[w].pc.Load? || s.workers[w].pc.Lookup? ||
                           s.workers[w].pc.Drive? || s.workers[w].pc.Mark?)
    case WorkerCrash(w) => w in s.workers && !s.workers[w].pc.Finished? && !s.workers[w].pc.WorkerThrew?
  }

  predicate AtStage(s: Sys, run: RunId) {
    && run in s.creators
    && s.creators[run].pc.InLoop?
    && s.creators[run].pc.txn in s.ledgers
  }

  function Goto(s: Sys, run: RunId, pc: CreatorPc): Sys
    requires run in s.creators
  {
    s.(creators := s.creators[run := s.creators[run].(pc := pc)])
  }

  function WorkerGoto(s: Sys, w: WorkerId, pc: WorkerPc): Sys
    requires w in s.workers
  {
    s.(workers := s.workers[w := s.workers[w].(pc := pc)])
  }

  /** The state after an enabled action. */
  function Do(s: Sys, a: Action): Sys
    requires Enabled(s, a)
  {
    match a
    case Begin(run, dto) => s.(creators := s.creators[run := Creator(dto, Lock)])
    case AnswerLock(run, granted) => Goto(s, run, if granted then DoubleCheck else ReadCache)
    case AnswerCache(run, answer) =>
      Goto(s, run,
           match answer
           case Missing => FindAfterRefusal
           case BeingProcessed => Threw
           case Completed(snapshot) => Returned(snapshot))
    case AnswerFind(run, found) =>
      Goto(s, run,
           if found.Some? then Publish(s.ledgers[found.value].row)
           else if s.creators[run].pc.FindAfterRefusal? then Threw
           else RankGateways)
    case AnswerRanking(run, ranking) =>
      Goto(s, run, if |ranking| == 0 then Cleanup else Insert(ranking[0], ranking[1..]))
    case InsertRow(run, id) => DoInsert(s, run, id)
    case LogCreation(run) => DoLogCreation(s, run)
    case WriteState(run, now) => DoWriteState(s, run, now)
    case PlaceCharge(run) =>
      var pc := s.creators[run].pc;
      Goto(s, run, pc.(loop := pc.loop.(stage := Await)))
        .(charges := s.charges + [Charge(run, pc.txn, s.creators[run].dto.idempotencyKey, pc.loop.gateway)])
    case AnswerCharge(run, outcome) =>
      var pc := s.creators[run].pc;
      Goto(s, run, pc.(loop := pc.loop.(stage := AfterCall(outcome, pc.loop.rest))))
    case StoreSnapshot(run) =>
      var snapshot := s.creators[run].pc.snapshot;
      Goto(s, run, Returned(snapshot))
        .(published := s.published + {CacheEntry(s.creators[run].dto.idempotencyKey, snapshot)})
    case Fault(run) => Goto(s, run, if InTry(s.creators[run].pc) then Cleanup else Threw)
    case CleanUp(run) => Goto(s, run, Threw)
    case Crash(run) => Goto(s, run, Crashed)
    case Spawn(w, record) => s.(workers := s.workers[w := Worker(record, Load)])
    case AnswerLoad(w, load) =>
      WorkerGoto(s, w,
                 match load
                 case NoRecord | AlreadyProcessed => Finished
                 case NoGatewayTxnId => Mark(None)
                 case Extracted(gateway, id) => Lookup(gateway, id))
    case AnswerLookup(w, found) =>
      var pc := s.workers[w].pc;
      WorkerGoto(s, w,
                 if found.None? then Mark(None)
                 else Drive(found.value, pc.gateway, pc.gatewayTxnId, s.ledgers[found.value].row.currentState))
    case Push(w, now) => DoPush(s, w, now)
    case MarkProcessed(w) => WorkerGoto(s, w, Finished)
    case WorkerFault(w) => WorkerGoto(s, w, WorkerThrew)
    case WorkerCrash(w) => WorkerGoto(s, w, WorkerCrashed)
  }

  /** The insert of line 128. The unique index on the key may refuse it. */
  function DoInsert(s: Sys, run: RunId, id: TxnId): Sys
    requires Enabled(s, InsertRow(run, id))
  {
    var c := s.creators[run];
    if KeyTaken(s.ledgers, c.dto.idempotencyKey) then Goto(s, run, Cleanup)
    else
      var row := NewTransaction(id, c.dto, c.pc.primary, c.pc.fallbacks);
      Goto(s, run, InLoop(id, Loop(c.pc.primary, c.pc.fallbacks, LogCreated)))
        .(ledgers := s.ledgers[id := Ledger(run, [], row, [])])
  }

  /** The first audit row, a write of its own (lines 130-138). */
  function DoLogCreation(s: Sys, run: RunId): Sys
    requires Enabled(s, LogCreation(run))
  {
    var pc := s.creators[run].pc;
    var L := s.ledgers[pc.txn];
    Goto(s, run, pc.(loop := pc.loop.(stage := Route)))
      .(ledgers := s.ledgers[pc.txn := L.(audit := L.audit + [CreatedLog(pc.txn, pc.loop.gateway)])])
  }

  /** A call of `transition` by the owning run; a refusal throws into the catch block.
      Leaving the loop after RETRY_PENDING is the throw after the loop (line 246). */
  function DoWriteState(s: Sys, run: RunId, now: Time): Sys
    requires Enabled(s, WriteState(run, now))
  {
    var pc := s.creators[run].pc;
    var w := CreatorWrite(pc.loop.stage, pc.loop.gateway);
    var L := s.ledgers[pc.txn];
    if !Allowed(L.row.currentState, w.toState) then Goto(s, run, Cleanup)
    else
      var M := Moved(L, w, now);
      var next :=
        match AfterWrite(pc.loop)
        case Some(loop) => InLoop(pc.txn, loop)
        case None => if pc.loop.stage.Retry? then Cleanup else Publish(M.row);
      Goto(s, run, next).(ledgers := s.ledgers[pc.txn := M])
  }

  /** One step of `driveToReconciled` from the state the worker holds locally. */
  function DoPush(s: Sys, w: WorkerId, now: Time): Sys
    requires Enabled(s, Push(w, now))
  {
    var pc := s.workers[w].pc;
    var L := s.ledgers[pc.txn];
    match WorkerWrite(pc.local, pc.gateway, pc.gatewayTxnId)
    case None => WorkerGoto(s, w, Mark(Some(pc.txn)))
    case Some(write) =>
      if !Allowed(L.row.currentState, write.toState) then WorkerGoto(s, w, WorkerThrew)
      else
        WorkerGoto(s, w, pc.(local := write.toState)).(ledgers := s.ledgers[pc.txn := Moved(L, write, now)])
  }

  predicate Path(states: seq<Sys>, actions: seq<Action>) {
    && |states| == |actions| + 1
    && forall i :: 0 <= i < |actions| ==> Enabled(states[i], actions[i]) && states[i + 1] == Do(states[i], actions[i])
  }

  /** A run of the whole system: its states, and the action between each two. */
  predicate Run(states: seq<Sys>, actions: seq<Action>) {
    Path(states, actions) && states[0] == START
  }
}
