/** How a webhook finds its row: before a row is paid only an event that names the client's
    key can drive it, and such an event can have a paid row charged. */
module Matching {
  import opened Lifecycle
  import opened Writers
  import opened Ledger
  import opened Protocol
  import opened ProtocolInvariant
  import opened ProtocolTheorems
  import opened Provenance
  import opened RestOfRun
  import opened World
  import Reconciliation
  import Webhooks

  // ---------- Who drives an unpaid row ----------

  lemma PaidStays(s: Sys, a: Action, t: TxnId)
    requires Enabled(s, a) && t in s.ledgers && Paid(s.ledgers[t].row.currentState)
    ensures t in Do(s, a).ledgers && Paid(Do(s, a).ledgers[t].row.currentState)
  {
    hide CreatorWrite, WorkerWrite, KeyTaken, FindAnswers, AfterCall, AfterWrite;
  }

  /** How a worker comes to drive row `t` from state `local`: as before, by finding the row in
      that state, or by its own last write. */
  lemma DrivingStep(s: Sys, a: Action, v: WorkerId)
    requires Enabled(s, a) && v in Do(s, a).workers && Do(s, a).workers[v].pc.Drive?
    ensures v in s.workers && Do(s, a).workers[v].record == s.workers[v].record
    ensures var before, after := s.workers[v].pc, Do(s, a).workers[v].pc;
            || before == after
            || (&& a == AnswerLookup(v, Some(after.txn)) && after.txn in s.ledgers
                && after.local == s.ledgers[after.txn].row.currentState)
            || (&& a.Push? && a.worker == v && before.Drive? && before.txn == after.txn
                && after.txn in Do(s, a).ledgers && Do(s, a).ledgers[after.txn].row.currentState == after.local
                && (Paid(before.local) ==> Paid(after.local)))
  {
    hide CreatorWrite, KeyTaken, FindAnswers, AfterCall, AfterWrite;
  }

  /** A worker that holds a paid state drives a paid row; one that holds an unpaid state has
      an event that names the row's key. */
  predicate DrivesItsRow(w: World, v: WorkerId) {
    v in w.pay.workers && w.pay.workers[v].pc.Drive? ==>
      var run := w.pay.workers[v];
      && run.pc.txn in w.pay.ledgers
      && var row := w.pay.ledgers[run.pc.txn].row;
         && (Paid(run.pc.local) ==> Paid(row.currentState))
         && (!Paid(run.pc.local) ==> run.record in w.events && KeyNamed(w.events, run.record) == row.idempotencyKey)
  }

  /** An unpaid row has no id yet, so only the key can have matched it. */
  lemma UnpaidIsFoundByKey(w: World, v: WorkerId, t: TxnId)
    requires Reachable(w.pay) && CanHappen(w, Pay(AnswerLookup(v, Some(t))))
    requires !Paid(w.pay.ledgers[t].row.currentState)
    ensures var record := w.pay.workers[v].record;
            record in w.events && KeyNamed(w.events, record) == w.pay.ledgers[t].row.idempotencyKey
  {
    hide Reachable;
    OutcomeIsWrittenOnce(w.pay, t);
    assert w.pay.ledgers[t].row in History(w.pay.ledgers[t]);
  }

  lemma StepKeepsDriving(w: World, a: Act, v: WorkerId)
    requires Reachable(w.pay) && CanHappen(w, a) && DrivesItsRow(w, v)
    ensures DrivesItsRow(Happen(w, a), v)
  {
    hide Reachable, Do, Enabled, Happen, KeyNamed, LookupFits, Extends, Found;
    var after := Happen(w, a);
    HappenPays(w, a);
    StepKeepsReachable(w, a);
    if v in after.pay.workers && after.pay.workers[v].pc.Drive? {
      var t := after.pay.workers[v].pc.txn;
      if PayAction(w, a).Some? {
        var action := PayAction(w, a).value;
        DrivingStep(w.pay, action, v);
        if action == AnswerLookup(v, Some(t)) {
          assert a == Pay(action);
          FoundRowIsDriven(w, v, t);
        } else {
          OldRowIsDriven(w, a, action, v);
        }
      } else {
        KeyStaysNamed(w, a, w.pay.workers[v].record);
      }
    }
  }

  lemma KeyStaysNamed(w: World, a: Act, record: RecordId)
    requires CanHappen(w, a)
    ensures record in w.events ==>
              record in Happen(w, a).events && KeyNamed(Happen(w, a).events, record) == KeyNamed(w.events, record)
  {
    hide CanHappen, Happen;
    if record in w.events {
      EventsKeepTheirIds(w, a, record);
    }
  }

  lemma FoundRowIsDriven(w: World, v: WorkerId, t: TxnId)
    requires Reachable(w.pay) && CanHappen(w, Pay(AnswerLookup(v, Some(t))))
    ensures DrivesItsRow(Happen(w, Pay(AnswerLookup(v, Some(t)))), v)
  {
    hide Reachable, KeyNamed;
    if !Paid(w.pay.ledgers[t].row.currentState) {
      UnpaidIsFoundByKey(w, v, t);
    }
  }

  lemma OldRowIsDriven(w: World, a: Act, action: Action, v: WorkerId)
    requires CanHappen(w, a) && DrivesItsRow(w, v) && v in w.pay.workers && w.pay.workers[v].pc.Drive?
    requires PayAction(w, a) == Some(action) && Enabled(w.pay, action)
    requires Happen(w, a).pay == Do(w.pay, action)
    requires var after := Do(w.pay, action);
             && v in after.workers && after.workers[v].pc.Drive? && after.workers[v].record == w.pay.workers[v].record
             && var was, isNow := w.pay.workers[v].pc, after.workers[v].pc;
                || was == isNow
                || (&& isNow.txn == was.txn && isNow.txn in after.ledgers
                    && after.ledgers[isNow.txn].row.currentState == isNow.local
                    && (Paid(was.local) ==> Paid(isNow.local)))
    ensures DrivesItsRow(Happen(w, a), v)
  {
    hide Do, Enabled, Happen, CanHappen, PayAction, KeyNamed;
    var t := w.pay.workers[v].pc.txn;
    StepGrows(w.pay, action);
    assert Extends(w.pay.ledgers[t], Do(w.pay, action).ledgers[t]);
    KeyStaysNamed(w, a, w.pay.workers[v].record);
    if Paid(w.pay.ledgers[t].row.currentState) {
      PaidStays(w.pay, action, t);
    }
  }

  lemma {:induction false} WorkersDriveTheirRows(worlds: seq<World>, acts: seq<Act>, i: nat, v: WorkerId)
    requires WorldRun(worlds, acts) && i < |worlds|
    ensures DrivesItsRow(worlds[i], v)
  {
    hide Happen, CanHappen, Reachable;
    if i == 0 {
    } else {
      WorkersDriveTheirRows(worlds, acts, i - 1, v);
      WorldIsAProtocolState(worlds, acts, i - 1);
      StepKeepsDriving(worlds[i - 1], acts[i - 1], v);
    }
  }

  /** A row that is not paid is driven only by workers whose stored event names its key. */
  lemma UnpaidRowsAreDrivenByKey(worlds: seq<World>, acts: seq<Act>, i: nat, v: WorkerId)
    requires WorldRun(worlds, acts) && i < |worlds| && v in worlds[i].pay.workers
    requires worlds[i].pay.workers[v].pc.Drive?
    ensures var w, t := worlds[i], worlds[i].pay.workers[v].pc.txn;
            && t in w.pay.ledgers
            && (!Paid(w.pay.ledgers[t].row.currentState) ==>
                  var record := w.pay.workers[v].record;
                  record in w.events && KeyNamed(w.events, record) == w.pay.ledgers[t].row.idempotencyKey)
  {
    hide WorldRun;
    WorkersDriveTheirRows(worlds, acts, i, v);
  }

  // ---------- The rows a webhook finds and writes ----------

  /** The row carries the event's id, or the key the event names, or, if it names none, the
      stand-in. */
  predicate Concerns(e: Webhooks.WebhookEvent, row: Transaction) {
    || (e.gatewayTxnId.Some? && row.gatewayTxnId == e.gatewayTxnId)
    || (e.payloadKey == Some(row.idempotencyKey) && row.idempotencyKey != "")
    || ((e.payloadKey == None || e.payloadKey == Some("")) && row.idempotencyKey == "___none___")
  }

  /** In every world of a run a worker may be given exactly the rows that its stored event
      concerns, and no row exactly if it concerns none. */
  lemma LookupIsByIdOrKey(worlds: seq<World>, acts: seq<Act>, i: nat, v: WorkerId, found: Option<TxnId>)
    requires WorldRun(worlds, acts) && i < |worlds| && v in worlds[i].pay.workers
    requires worlds[i].pay.workers[v].pc.Lookup?
    ensures worlds[i].pay.workers[v].record in worlds[i].events
    ensures var w := worlds[i];
            var e := w.events[w.pay.workers[v].record];
            CanHappen(w, Pay(AnswerLookup(v, found))) <==>
              if found.Some? then found.value in w.pay.ledgers && Concerns(e, w.pay.ledgers[found.value].row)
              else forall t :: t in w.pay.ledgers ==> !Concerns(e, w.pay.ledgers[t].row)
  {
    hide Happen, WorldRun, Reconciliation.Matches, Reconciliation.LookupKey, Concerns;
    WorkersReadEvents(worlds, acts, i, v);
    var w := worlds[i];
    var run := w.pay.workers[v];
    forall t | t in w.pay.ledgers
      ensures Reconciliation.Matches(w.pay.ledgers[t].row, run.pc.gatewayTxnId, KeyNamed(w.events, run.record)) <==>
              Concerns(w.events[run.record], w.pay.ledgers[t].row)
    {
      ConcernsIsMatches(w.events[run.record], w.pay.ledgers[t].row);
    }
  }

  lemma ConcernsIsMatches(e: Webhooks.WebhookEvent, row: Transaction)
    requires e.gatewayTxnId.Some?
    ensures Concerns(e, row) <==>
            Reconciliation.Matches(row, e.gatewayTxnId.value, Reconciliation.LookupKey(e.payloadKey))
  {
    Reconciliation.MatchesByIdOrKey(row, e.gatewayTxnId.value, e.payloadKey);
  }

  /** Every audit row written from a webhook names the gateway of a stored event. */
  lemma {:induction false} WebhookRowsNameAnEvent(worlds: seq<World>, acts: seq<Act>, j: nat, t: TxnId, n: nat)
    returns (record: RecordId)
    requires WorldRun(worlds, acts) && j < |worlds| && t in worlds[j].pay.ledgers
    requires n < |Moves(worlds[j].pay.ledgers[t].audit)|
    requires FromWebhook(Moves(worlds[j].pay.ledgers[t].audit)[n].reason)
    ensures record in worlds[j].events
    ensures Moves(worlds[j].pay.ledgers[t].audit)[n].gateway == Some(worlds[j].events[record].gateway)
  {
    hide Do, Enabled, Happen, CanHappen, PayAction, Moves;
    assert j > 0;
    var w, a := worlds[j - 1], acts[j - 1];
    HappenPays(w, a);
    if PayAction(w, a).None? {
      record := WebhookRowsNameAnEvent(worlds, acts, j - 1, t, n);
    } else {
      var action := PayAction(w, a).value;
      if t !in w.pay.ledgers {
        NewRowsAreInserted(w.pay, action, t);
        NothingMovesYet(worlds[j].pay.ledgers[t]);
        assert false;
      }
      RowsAreAddedOneByOne(w.pay, action, t);
      if n < |Moves(w.pay.ledgers[t].audit)| {
        record := WebhookRowsNameAnEvent(worlds, acts, j - 1, t, n);
      } else {
        WorkersReadEvents(worlds, acts, j - 1, action.worker);
        record := w.pay.workers[action.worker].record;
      }
    }
    EventsKeepTheirIds(w, a, record);
  }

  lemma NothingMovesYet(L: Ledger)
    requires L.audit == []
    ensures Moves(L.audit) == []
  {
  }

  // ---------- Charges of paid rows ----------

  lemma {:induction false} WorldKeepsSucceeded(worlds: seq<World>, acts: seq<Act>, i: nat, j: nat, run: RunId)
    requires WorldRun(worlds, acts) && i <= j < |worlds| && HasSucceeded(worlds[i].pay, run)
    ensures HasSucceeded(worlds[j].pay, run)
  {
    hide Happen, CanHappen, HasSucceeded, PayAction, Do, Enabled;
    if i == j {
    } else {
      WorldKeepsSucceeded(worlds, acts, i, j - 1, run);
      HappenPays(worlds[j - 1], acts[j - 1]);
      if PayAction(worlds[j - 1], acts[j - 1]).Some? {
        StepKeepsSucceeded(worlds[j - 1].pay, PayAction(worlds[j - 1], acts[j - 1]).value, run);
      }
    }
  }

  lemma PaidRowHasId(s: Sys, t: TxnId) returns (id: string)
    requires Reachable(s) && t in s.ledgers && Paid(s.ledgers[t].row.currentState)
    ensures s.ledgers[t].row.gatewayTxnId == Some(id)
  {
    hide Reachable;
    OutcomeIsWrittenOnce(s, t);
    assert s.ledgers[t].row in History(s.ledgers[t]);
    id := s.ledgers[t].row.gatewayTxnId.value;
  }

  lemma UnpaidWithoutId(s: Sys, t: TxnId)
    requires Reachable(s) && t in s.ledgers && s.ledgers[t].row.gatewayTxnId.None?
    ensures !Paid(s.ledgers[t].row.currentState)
  {
    hide Reachable;
    OutcomeIsWrittenOnce(s, t);
    assert s.ledgers[t].row in History(s.ledgers[t]);
  }

  /** If a run is about to charge a row that is paid already, the row was paid at an earlier
      step `k` by a worker whose delivered event carries the id the row has, and names the
      very key the client sent. */
  lemma PaidRowChargedOnlyByItsKey(worlds: seq<World>, acts: seq<Act>, j: nat, run: RunId)
    returns (k: nat, id: string)
    requires WorldRun(worlds, acts) && j < |worlds| && CanHappen(worlds[j], Pay(PlaceCharge(run)))
    requires Paid(worlds[j].pay.ledgers[worlds[j].pay.creators[run].pc.txn].row.currentState)
    ensures var t := worlds[j].pay.creators[run].pc.txn;
            && worlds[j].pay.ledgers[t].row.gatewayTxnId == Some(id)
            && k < j && acts[k].Pay? && PaidByWebhook(worlds[k].pay, acts[k].action, t, id)
            && var record := worlds[k].pay.workers[acts[k].action.worker].record;
               && record in worlds[k].events && worlds[k].events[record].gatewayTxnId == Some(id)
               && KeyNamed(worlds[k].events, record) == worlds[j].pay.creators[run].dto.idempotencyKey
  {
    hide Reachable, Do, Happen, KeyNamed, Sane;
    var s := worlds[j].pay;
    var t := s.creators[run].pc.txn;
    WorldIsAProtocolState(worlds, acts, j);
    OwnerIsAtWork(s, run);
    id := PaidRowHasId(s, t);
    k := ReceiptIsAnswerOrDelivery(worlds, acts, j, t, id);
    var w := worlds[k];
    WorldIsAProtocolState(worlds, acts, k);
    WorldGrows(worlds, acts, k, j);
    assert Extends(w.pay.ledgers[t], s.ledgers[t]);
    if PaidByItsRun(w.pay, acts[k].action, t, id) {
      OwnerIsAtWork(w.pay, acts[k].action.run);
      WorldKeepsSucceeded(worlds, acts, k, j, run);
      assert false;
    }
    UnpaidWithoutId(w.pay, t);
    UnpaidRowsAreDrivenByKey(worlds, acts, k, acts[k].action.worker);
    OwnRowHasOwnKey(s, run);
  }

  lemma OwnRowHasOwnKey(s: Sys, run: RunId)
    requires Reachable(s) && run in s.creators && s.creators[run].pc.InLoop?
    ensures s.creators[run].pc.txn in s.ledgers
    ensures s.ledgers[s.creators[run].pc.txn].row.idempotencyKey == s.creators[run].dto.idempotencyKey
  {
    hide Reachable, Sane;
    ReachableSatisfiesInv(s);
    assert CreatorFits(s.ledgers, run, s.creators[run]);
  }

  // ---------- It can happen ----------

  /** Some steps lead from one world to the other. */
  ghost predicate WorldLeads(base: World, w: World) {
    exists worlds: seq<World>, acts: seq<Act> ::
      WorldPath(worlds, acts) && worlds[0] == base && worlds[|acts|] == w
  }

  lemma Then(base: World, w: World, a: Act) returns (after: World)
    requires WorldLeads(base, w) && CanHappen(w, a)
    ensures after == Happen(w, a) && WorldLeads(base, after)
  {
    hide CanHappen, Happen;
    after := Happen(w, a);
    var worlds, acts :| WorldPath(worlds, acts) && worlds[0] == base && worlds[|acts|] == w;
    assert WorldPath(worlds + [after], acts + [a]);
  }

  /** An action of a `create` run. */
  lemma ThenPay(base: World, w: World, action: Action) returns (after: World)
    requires WorldLeads(base, w) && Enabled(w.pay, action) && ByCreator(action)
    ensures after == w.(pay := Do(w.pay, action)) && WorldLeads(base, after)
  {
    hide WorldLeads, Do, Enabled;
    after := Then(base, w, Pay(action));
  }

  /** Run `run` has just inserted and logged row `id`, with gateway `g` alone. */
  predicate JustInserted(base: Sys, s: Sys, run: RunId, dto: CreateTransactionDto, id: TxnId, g: GatewayProvider) {
    && run in s.creators && s.creators[run] == Creator(dto, InLoop(id, Loop(g, [], Route)))
    && id in s.ledgers && s.ledgers[id].row == NewTransaction(id, dto, g, [])
    && s.workers == base.workers
  }

  lemma LeadsNowhere(w: World)
    ensures WorldLeads(w, w)
  {
    assert WorldPath([w], []);
  }

  lemma LockInWorld(base: World, run: RunId, dto: CreateTransactionDto) returns (w: World)
    requires run !in base.pay.creators
    ensures WorldLeads(base, w)
    ensures w == base.(pay := base.pay.(creators := base.pay.creators[run := Creator(dto, DoubleCheck)]))
  {
    hide WorldLeads;
    LeadsNowhere(base);
    var begun := ThenPay(base, base, Begin(run, dto));
    w := ThenPay(base, begun, AnswerLock(run, true));
    assert w.pay.creators == base.pay.creators[run := Creator(dto, DoubleCheck)];
  }

  lemma RankInWorld(base: World, run: RunId, dto: CreateTransactionDto, g: GatewayProvider) returns (w: World)
    requires run !in base.pay.creators && !KeyTaken(base.pay.ledgers, dto.idempotencyKey)
    ensures WorldLeads(base, w)
    ensures w == base.(pay := base.pay.(creators := base.pay.creators[run := Creator(dto, Insert(g, []))]))
  {
    hide WorldLeads, KeyTaken;
    var locked := LockInWorld(base, run, dto);
    var checked := ThenPay(base, locked, AnswerFind(run, None));
    w := ThenPay(base, checked, AnswerRanking(run, [g]));
    assert [g][1..] == [];
    assert w.pay.creators == base.pay.creators[run := Creator(dto, Insert(g, []))];
  }

  lemma InsertInWorld(base: World, run: RunId, dto: CreateTransactionDto, id: TxnId, g: GatewayProvider)
    returns (w: World)
    requires run !in base.pay.creators && id !in base.pay.ledgers
    requires !KeyTaken(base.pay.ledgers, dto.idempotencyKey)
    ensures WorldLeads(base, w) && w == base.(pay := w.pay)
    ensures JustInserted(base.pay, w.pay, run, dto, id, g)
  {
    hide WorldLeads, KeyTaken;
    var ranked := RankInWorld(base, run, dto, g);
    var inserted := ThenPay(base, ranked, InsertRow(run, id));
    w := ThenPay(base, inserted, LogCreation(run));
  }

  /** The run goes on to its charge call. */
  lemma CallInWorld(base: World, w: World, run: RunId, dto: CreateTransactionDto, id: TxnId, g: GatewayProvider)
    returns (after: World)
    requires WorldLeads(base, w) && JustInserted(base.pay, w.pay, run, dto, id, g)
    ensures WorldLeads(base, after) && after == w.(pay := after.pay)
    ensures after.pay.workers == base.pay.workers && Enabled(after.pay, PlaceCharge(run))
    ensures after.pay.creators[run].pc.txn == id
    ensures after.pay.ledgers[id].row.currentState == PROCESSING
    ensures after.pay.ledgers[id].row.idempotencyKey == dto.idempotencyKey
  {
    hide WorldLeads;
    var routed := ThenPay(base, w, WriteState(run, 0));
    after := ThenPay(base, routed, WriteState(run, 0));
  }

  /** An event is delivered, stored and pushed. */
  lemma QueueInWorld(base: World, w: World, i: IngestId, record: RecordId, event: Webhooks.IncomingWebhook)
    returns (after: World)
    requires WorldLeads(base, w) && i !in w.ingests && record !in w.events
    requires !Webhooks.Seen(w.events, event.gateway, event.eventId)
    ensures WorldLeads(base, after) && after.pay == w.pay && record in after.queue
    ensures after.events == w.events[record := Webhooks.Stored(event)]
  {
    hide WorldLeads, Webhooks.Seen, Do, Enabled;
    var delivered := Then(base, w, Deliver(i, event));
    var saved := Then(base, delivered, SaveEvent(i, record));
    after := Then(base, saved, PushEvent(i));
  }

  /** A worker pops the record and loads its event. */
  lemma LoadInWorld(base: World, w: World, record: RecordId, v: WorkerId) returns (after: World)
    requires WorldLeads(base, w) && record in w.queue && v !in w.pay.workers
    requires record in w.events && !w.events[record].processed && w.events[record].gatewayTxnId.Some?
    ensures WorldLeads(base, after) && after.events == w.events
    ensures after.pay.ledgers == w.pay.ledgers && after.pay.creators == w.pay.creators
    ensures v in after.pay.workers
    ensures var event := w.events[record];
            after.pay.workers[v] == Worker(record, Lookup(event.gateway, event.gatewayTxnId.value))
  {
    hide WorldLeads;
    var popped := Then(base, w, Pop(v, record));
    after := Then(base, popped, LoadEvent(v));
  }

  /** The event names the key of row `id`, so that row may be what the worker is given. */
  lemma MatchInWorld(base: World, w: World, v: WorkerId, id: TxnId) returns (after: World)
    requires WorldLeads(base, w) && v in w.pay.workers && w.pay.workers[v].pc.Lookup? && id in w.pay.ledgers
    requires w.pay.workers[v].record in w.events
    requires w.pay.ledgers[id].row.idempotencyKey == KeyNamed(w.events, w.pay.workers[v].record)
    ensures WorldLeads(base, after) && after.events == w.events
    ensures after.pay.ledgers == w.pay.ledgers && after.pay.creators == w.pay.creators
    ensures v in after.pay.workers
    ensures var pc := w.pay.workers[v].pc;
            after.pay.workers[v].pc == Drive(id, pc.gateway, pc.gatewayTxnId, w.pay.ledgers[id].row.currentState)
  {
    hide WorldLeads, KeyNamed;
    after := Then(base, w, Pay(AnswerLookup(v, Some(id))));
  }

  /** It drives a PROCESSING row to SUCCESS. */
  lemma PayInWorld(base: World, w: World, v: WorkerId) returns (after: World)
    requires WorldLeads(base, w) && v in w.pay.workers && w.pay.workers[v].pc.Drive?
    requires var pc := w.pay.workers[v].pc;
             && pc.local == PROCESSING && pc.txn in w.pay.ledgers
             && w.pay.ledgers[pc.txn].row.currentState == PROCESSING
    ensures WorldLeads(base, after) && after.events == w.events && after.pay.creators == w.pay.creators
    ensures var pc := w.pay.workers[v].pc;
            && pc.txn in after.pay.ledgers
            && after.pay.ledgers[pc.txn].row.currentState == SUCCESS
            && after.pay.ledgers[pc.txn].row.gatewayTxnId == Some(pc.gatewayTxnId)
  {
    hide WorldLeads;
    after := Then(base, w, Pay(Push(v, 0)));
  }

  /** From every world: a client's payment reaches its charge call, an event that names the
      client's key is delivered and drives the row to SUCCESS, and the call can still be
      made. With `PaidRowChargedOnlyByItsKey` this is exactly when a paid row is charged. */
  lemma PaidRowsAreCharged(base: World, run: RunId, dto: CreateTransactionDto, id: TxnId, g: GatewayProvider,
                           i: IngestId, record: RecordId, v: WorkerId, event: Webhooks.IncomingWebhook)
    returns (w: World)
    requires run !in base.pay.creators && id !in base.pay.ledgers
    requires !KeyTaken(base.pay.ledgers, dto.idempotencyKey)
    requires i !in base.ingests && record !in base.events && v !in base.pay.workers
    requires !Webhooks.Seen(base.events, event.gateway, event.eventId)
    requires event.gatewayTxnId.Some? && Reconciliation.LookupKey(event.payloadKey) == dto.idempotencyKey
    ensures WorldLeads(base, w) && w.events == base.events[record := Webhooks.Stored(event)]
    ensures CanHappen(w, Pay(PlaceCharge(run))) && w.pay.creators[run].pc.txn == id
    ensures w.pay.ledgers[id].row.currentState == SUCCESS
    ensures w.pay.ledgers[id].row.gatewayTxnId == event.gatewayTxnId
  {
    hide WorldLeads, KeyTaken, Webhooks.Seen;
    var inserted := InsertInWorld(base, run, dto, id, g);
    var calling := CallInWorld(base, inserted, run, dto, id, g);
    var queued := QueueInWorld(base, calling, i, record, event);
    var loaded := LoadInWorld(base, queued, record, v);
    var driving := MatchInWorld(base, loaded, v, id);
    w := PayInWorld(base, driving, v);
  }
}
