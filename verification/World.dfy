/** The payment protocol together with webhook ingestion: deliveries, a lossy queue, and
    workers that start only from what they pop. */
module World {
  import opened Lifecycle
  import opened Protocol
  import opened ProtocolInvariant
  import opened ProtocolTheorems
  import opened Provenance
  import Reconciliation
  import Webhooks

  type IngestId = nat

  datatype IngestPc = Save | PushRecord(record: RecordId) | Acked(duplicate: bool) | IngestFailed

  datatype Ingest = Ingest(webhook: Webhooks.IncomingWebhook, pc: IngestPc)

  /** `matches` gives, for an event a worker marked processed, the row it had matched. */
  datatype World = World(
    pay: Sys,
    events: map<RecordId, Webhooks.WebhookEvent>,
    matches: map<RecordId, TxnId>,
    ingests: map<IngestId, Ingest>,
    queue: multiset<RecordId>)

  const NEW := World(START, map[], map[], map[], multiset{})

  datatype Act =
    | Deliver(ingest: IngestId, webhook: Webhooks.IncomingWebhook)
    | SaveEvent(ingest: IngestId, record: RecordId)
    | PushEvent(ingest: IngestId)
    | FailIngest(ingest: IngestId, pushed: bool)   // a push may fail after it took effect
    | Lose(record: RecordId)
    | Pop(worker: WorkerId, record: RecordId)
    | LoadEvent(worker: WorkerId)
    | SaveProcessed(worker: WorkerId)
    | Pay(action: Action)

  /** What a worker finds under its record id. */
  function Found(events: map<RecordId, Webhooks.WebhookEvent>, record: RecordId): LoadAnswer {
    if record !in events then NoRecord
    else if events[record].processed then AlreadyProcessed
    else if events[record].gatewayTxnId.None? then NoGatewayTxnId
    else Extracted(events[record].gateway, events[record].gatewayTxnId.value)
  }

  /** `findOne` by the gateway's id or the key in the payload; any matching row may be given. */
  predicate LookupAnswers(ledgers: map<TxnId, Ledger.Ledger>, id: string, key: string, found: Option<TxnId>) {
    match found
    case Some(t) => t in ledgers && Reconciliation.Matches(ledgers[t].row, id, key)
    case None => forall t :: t in ledgers ==> !Reconciliation.Matches(ledgers[t].row, id, key)
  }

  /** The client's key under which the event of a record is looked up. */
  function KeyNamed(events: map<RecordId, Webhooks.WebhookEvent>, record: RecordId): string
    requires record in events
  {
    Reconciliation.LookupKey(events[record].payloadKey)
  }

  /** The row a worker is given is one that its own event matches. */
  predicate LookupFits(w: World, worker: WorkerId, found: Option<TxnId>) {
    && worker in w.pay.workers && w.pay.workers[worker].pc.Lookup?
    && var run := w.pay.workers[worker];
       && run.record in w.events
       && LookupAnswers(w.pay.ledgers, run.pc.gatewayTxnId, KeyNamed(w.events, run.record), found)
  }

  predicate CanHappen(w: World, a: Act) {
    match a
    case Deliver(i, _) => i !in w.ingests
    case SaveEvent(i, record) => i in w.ingests && w.ingests[i].pc.Save? && record !in w.events
    case PushEvent(i) => i in w.ingests && w.ingests[i].pc.PushRecord?
    case FailIngest(i, pushed) =>
      i in w.ingests && (w.ingests[i].pc.PushRecord? || (w.ingests[i].pc.Save? && !pushed))
    case Lose(record) => record in w.queue
    case Pop(worker, record) => record in w.queue && Enabled(w.pay, Spawn(worker, record))
    case LoadEvent(worker) => worker in w.pay.workers && w.pay.workers[worker].pc.Load?
    case SaveProcessed(worker) =>
      && worker in w.pay.workers && w.pay.workers[worker].pc.Mark?
      && w.pay.workers[worker].record in w.events
    case Pay(action) =>
      && Enabled(w.pay, action) && !action.Spawn? && !action.AnswerLoad? && !action.MarkProcessed?
      && (action.AnswerLookup? ==> LookupFits(w, action.worker, action.found))
  }

  function Happen(w: World, a: Act): World
    requires CanHappen(w, a)
  {
    match a
    case Deliver(i, webhook) => w.(ingests := w.ingests[i := Ingest(webhook, Save)])
    case SaveEvent(i, record) =>
      var webhook := w.ingests[i].webhook;
      if Webhooks.Seen(w.events, webhook.gateway, webhook.eventId) then
        w.(ingests := w.ingests[i := Ingest(webhook, Acked(true))])
      else
        w.(ingests := w.ingests[i := Ingest(webhook, PushRecord(record))],
              events := w.events[record := Webhooks.Stored(webhook)])
    case PushEvent(i) =>
      w.(ingests := w.ingests[i := w.ingests[i].(pc := Acked(false))],
         queue := w.queue + multiset{w.ingests[i].pc.record})
    case FailIngest(i, pushed) =>
      w.(ingests := w.ingests[i := w.ingests[i].(pc := IngestFailed)],
         queue := if pushed then w.queue + multiset{w.ingests[i].pc.record} else w.queue)
    case Lose(record) => w.(queue := w.queue - multiset{record})
    case Pop(worker, record) =>
      w.(queue := w.queue - multiset{record}, pay := Do(w.pay, Spawn(worker, record)))
    case LoadEvent(worker) =>
      w.(pay := Do(w.pay, AnswerLoad(worker, Found(w.events, w.pay.workers[worker].record))))
    case SaveProcessed(worker) =>
      var run := w.pay.workers[worker];
      w.(pay := Do(w.pay, MarkProcessed(worker)),
         events := w.events[run.record := w.events[run.record].(processed := true)],
         matches := if run.pc.matched.Some? then w.matches[run.record := run.pc.matched.value] else w.matches)
    case Pay(action) => w.(pay := Do(w.pay, action))
  }

  predicate WorldPath(worlds: seq<World>, acts: seq<Act>) {
    && |worlds| == |acts| + 1
    && forall i :: 0 <= i < |acts| ==> CanHappen(worlds[i], acts[i]) && worlds[i + 1] == Happen(worlds[i], acts[i])
  }

  predicate WorldRun(worlds: seq<World>, acts: seq<Act>) {
    WorldPath(worlds, acts) && worlds[0] == NEW
  }

  // ---------- The invariant ----------

  predicate Pushing(ingests: map<IngestId, Ingest>, i: IngestId, record: RecordId) {
    i in ingests && ingests[i].pc == PushRecord(record)
  }

  predicate Handles(workers: map<WorkerId, Worker>, worker: WorkerId, record: RecordId) {
    worker in workers && workers[worker].record == record
  }

  /** A record is about to be pushed by one delivery, or waits once, or is with one worker. */
  ghost predicate Apart(records: set<RecordId>, ingests: map<IngestId, Ingest>, queue: multiset<RecordId>,
                        workers: map<WorkerId, Worker>)
  {
    && (forall r :: queue[r] <= 1)
    && (forall r :: r in queue ==> r in records)
    && (forall i, r :: Pushing(ingests, i, r) ==> r in records && r !in queue)
    && (forall v, r :: Handles(workers, v, r) ==> r in records && r !in queue)
    && (forall i, j, r :: Pushing(ingests, i, r) && Pushing(ingests, j, r) ==> i == j)
    && (forall v, u, r :: Handles(workers, v, r) && Handles(workers, u, r) ==> v == u)
    && (forall i, v, r :: Pushing(ingests, i, r) ==> !Handles(workers, v, r))
  }

  ghost predicate OnePlace(w: World) {
    Apart(w.events.Keys, w.ingests, w.queue, w.pay.workers)
  }

  predicate MatchSettled(ledgers: map<TxnId, Ledger.Ledger>, t: TxnId) {
    t in ledgers && Settled(ledgers[t].row.currentState)
  }

  predicate EventsSettled(w: World) {
    forall r :: r in w.matches ==>
      r in w.events && w.events[r].processed && MatchSettled(w.pay.ledgers, w.matches[r])
  }

  ghost predicate WorldInv(w: World) {
    Reachable(w.pay) && Webhooks.UniqueEvents(w.events) && OnePlace(w) && EventsSettled(w)
  }

  lemma WorldStarts()
    ensures WorldInv(NEW)
  {
    assert Run([START], []) && [START][0] == START;
  }

  /** The step of the payment protocol that a step of the world contains. */
  function PayAction(w: World, a: Act): Option<Action>
    requires CanHappen(w, a)
  {
    match a
    case Pop(worker, record) => Some(Spawn(worker, record))
    case LoadEvent(worker) => Some(AnswerLoad(worker, Found(w.events, w.pay.workers[worker].record)))
    case SaveProcessed(worker) => Some(MarkProcessed(worker))
    case Pay(action) => Some(action)
    case _ => None
  }

  lemma HappenPays(w: World, a: Act)
    requires CanHappen(w, a)
    ensures match PayAction(w, a)
            case Some(action) => Enabled(w.pay, action) && Happen(w, a).pay == Do(w.pay, action)
            case None => Happen(w, a).pay == w.pay
  {
    hide Do;
  }

  /** Every step of the world is a step of the payment protocol or leaves it alone. */
  lemma StepKeepsReachable(w: World, a: Act)
    requires Reachable(w.pay) && CanHappen(w, a)
    ensures Reachable(Happen(w, a).pay)
    ensures ProtocolInvariant.Grows(w.pay.ledgers, Happen(w, a).pay.ledgers)
  {
    hide Reachable, Extends, Do, Enabled, Happen, CanHappen, PayAction;
    GrowsIsReflexive(w.pay.ledgers);
    HappenPays(w, a);
    if PayAction(w, a).Some? {
      TakeStep(w.pay, PayAction(w, a).value);
    }
  }

  lemma TakeStep(s: Sys, a: Action)
    requires Reachable(s) && Enabled(s, a)
    ensures Reachable(Do(s, a)) && Grows(s.ledgers, Do(s, a).ledgers)
  {
    hide Reachable, Extends, Do, Enabled;
    NextIsReachable(s, a);
    StepGrows(s, a);
  }

  lemma StepKeepsUnique(w: World, a: Act)
    requires Webhooks.UniqueEvents(w.events) && CanHappen(w, a)
    ensures Webhooks.UniqueEvents(Happen(w, a).events)
  {
    hide Do, Enabled;
  }

  /** No action of the protocol other than a spawn changes which record a worker handles. */
  lemma WorkersKeepTheirRecords(s: Sys, a: Action)
    requires Enabled(s, a) && !a.Spawn?
    ensures forall v, r :: Handles(Do(s, a).workers, v, r) <==> Handles(s.workers, v, r)
  {
  }

  lemma StepKeepsOnePlace(w: World, a: Act)
    requires OnePlace(w) && CanHappen(w, a)
    ensures OnePlace(Happen(w, a))
  {
    hide OnePlace, Happen, CanHappen;
    match a
    case Pop(worker, record) => PopKeepsOnePlace(w, worker, record);
    case SaveEvent(i, record) => SaveKeepsOnePlace(w, i, record);
    case PushEvent(_) => LeavingKeepsOnePlace(w, a);
    case FailIngest(_, _) => LeavingKeepsOnePlace(w, a);
    case Deliver(_, _) => WaitingKeepsOnePlace(w, a);
    case Lose(_) => WaitingKeepsOnePlace(w, a);
    case _ => WorkingKeepsOnePlace(w, a);
  }

  lemma WaitingKeepsOnePlace(w: World, a: Act)
    requires OnePlace(w) && CanHappen(w, a) && (a.Deliver? || a.Lose?)
    ensures OnePlace(Happen(w, a))
  {
    hide Do, Enabled, Apart;
    match a
    case Deliver(i, webhook) => Delivered(w.events.Keys, w.ingests, w.queue, w.pay.workers, i, webhook);
    case Lose(record) => Lost(w.events.Keys, w.ingests, w.queue, w.pay.workers, record);
  }

  lemma Delivered(records: set<RecordId>, ingests: map<IngestId, Ingest>, queue: multiset<RecordId>,
                  workers: map<WorkerId, Worker>, i: IngestId, webhook: Webhooks.IncomingWebhook)
    requires Apart(records, ingests, queue, workers) && i !in ingests
    ensures Apart(records, ingests[i := Ingest(webhook, Save)], queue, workers)
  {
    var after := ingests[i := Ingest(webhook, Save)];
    assert forall j, r :: Pushing(after, j, r) <==> Pushing(ingests, j, r);
  }

  lemma Lost(records: set<RecordId>, ingests: map<IngestId, Ingest>, queue: multiset<RecordId>,
             workers: map<WorkerId, Worker>, record: RecordId)
    requires Apart(records, ingests, queue, workers)
    ensures Apart(records, ingests, queue - multiset{record}, workers)
  {
  }

  lemma WorkingKeepsOnePlace(w: World, a: Act)
    requires OnePlace(w) && CanHappen(w, a) && (a.LoadEvent? || a.SaveProcessed? || a.Pay?)
    ensures OnePlace(Happen(w, a))
  {
    hide Do, Enabled;
    HappenPays(w, a);
    assert !PayAction(w, a).value.Spawn?;
    WorkersKeepTheirRecords(w.pay, PayAction(w, a).value);
  }

  lemma PopKeepsOnePlace(w: World, worker: WorkerId, record: RecordId)
    requires OnePlace(w) && CanHappen(w, Pop(worker, record))
    ensures OnePlace(Happen(w, Pop(worker, record)))
  {
    hide Apart;
    PickedUp(w.events.Keys, w.ingests, w.queue, w.pay.workers, worker, record);
  }

  lemma PickedUp(records: set<RecordId>, ingests: map<IngestId, Ingest>, queue: multiset<RecordId>,
                 workers: map<WorkerId, Worker>, worker: WorkerId, record: RecordId)
    requires Apart(records, ingests, queue, workers) && record in queue && worker !in workers
    ensures Apart(records, ingests, queue - multiset{record}, workers[worker := Worker(record, Load)])
  {
    var after := workers[worker := Worker(record, Load)];
    assert forall v, r :: Handles(after, v, r) <==> Handles(workers, v, r) || (v == worker && r == record);
    assert queue[record] == 1;
  }

  /** A delivery is stored exactly if no event with its gateway and its event id is. */
  lemma DeliveryIsStoredIff(w: World, i: IngestId, record: RecordId)
    requires CanHappen(w, SaveEvent(i, record))
    ensures var webhook, after := w.ingests[i].webhook, Happen(w, SaveEvent(i, record));
            && after.pay == w.pay && after.queue == w.queue
            && if exists r :: r in w.events && w.events[r].gateway == webhook.gateway &&
                              w.events[r].eventId == webhook.eventId
               then after.events == w.events && after.ingests[i].pc == Acked(true)
               else
                 && after.ingests[i].pc == PushRecord(record)
                 && after.events ==
                    w.events[record := Webhooks.WebhookEvent(webhook.gateway, webhook.eventId, webhook.gatewayTxnId,
                                                             webhook.payloadKey, false)]
  {
    hide Do, Enabled;
  }

  lemma SaveKeepsOnePlace(w: World, i: IngestId, record: RecordId)
    requires OnePlace(w) && CanHappen(w, SaveEvent(i, record))
    ensures OnePlace(Happen(w, SaveEvent(i, record)))
  {
    hide Do, Enabled;
    var after := Happen(w, SaveEvent(i, record));
    assert after.pay == w.pay && after.queue == w.queue;
    if Webhooks.Seen(w.events, w.ingests[i].webhook.gateway, w.ingests[i].webhook.eventId) {
      assert forall j, r :: Pushing(after.ingests, j, r) <==> Pushing(w.ingests, j, r);
    } else {
      assert forall j, r :: Pushing(after.ingests, j, r) <==> Pushing(w.ingests, j, r) || (j == i && r == record);
    }
  }

  /** A delivery that leaves the pushing stage hands its record on at most once. */
  lemma LeavingKeepsOnePlace(w: World, a: Act)
    requires OnePlace(w) && CanHappen(w, a) && (a.PushEvent? || a.FailIngest?)
    ensures OnePlace(Happen(w, a))
  {
    hide Apart, Do, Enabled;
    var i := a.ingest;
    var after := Happen(w, a);
    HandedOn(w.events.Keys, w.ingests, w.queue, w.pay.workers, i, after.ingests[i].pc, after.queue);
  }

  lemma HandedOn(records: set<RecordId>, ingests: map<IngestId, Ingest>, queue: multiset<RecordId>,
                 workers: map<WorkerId, Worker>, i: IngestId, pc: IngestPc, longer: multiset<RecordId>)
    requires Apart(records, ingests, queue, workers) && i in ingests && !pc.PushRecord?
    requires longer == queue || (ingests[i].pc.PushRecord? && longer == queue + multiset{ingests[i].pc.record})
    ensures Apart(records, ingests[i := ingests[i].(pc := pc)], longer, workers)
  {
    var after := ingests[i := ingests[i].(pc := pc)];
    assert forall j, r :: Pushing(after, j, r) <==> Pushing(ingests, j, r) && j != i;
    if ingests[i].pc.PushRecord? {
      assert Pushing(ingests, i, ingests[i].pc.record);
    }
  }

  lemma StepKeepsEventsSettled(w: World, a: Act)
    requires WorldInv(w) && CanHappen(w, a)
    ensures EventsSettled(Happen(w, a))
  {
    hide Reachable, OnePlace, Webhooks.UniqueEvents, Do, Enabled, Grows;
    var after := Happen(w, a);
    StepKeepsReachable(w, a);
    forall r | r in after.matches
      ensures r in after.events && after.events[r].processed && MatchSettled(after.pay.ledgers, after.matches[r])
    {
      if r in w.matches {
        MatchStays(w.pay.ledgers, after.pay.ledgers, w.matches[r]);
      }
      if a.SaveProcessed? {
        MarkIsSettled(w, a.worker);
      }
    }
  }

  lemma MarkIsSettled(w: World, worker: WorkerId)
    requires Reachable(w.pay) && CanHappen(w, SaveProcessed(worker))
    ensures Do(w.pay, MarkProcessed(worker)).ledgers == w.pay.ledgers
    ensures var m := w.pay.workers[worker].pc.matched;
            m.Some? ==> m.value in w.pay.ledgers && Settled(w.pay.ledgers[m.value].row.currentState)
  {
    hide Reachable;
    ReachableSatisfiesInv(w.pay);
    assert WorkerFits(w.pay.ledgers, w.pay.workers[worker]);
  }

  lemma MatchStays(ledgers: map<TxnId, Ledger.Ledger>, after: map<TxnId, Ledger.Ledger>, t: TxnId)
    requires Grows(ledgers, after) && MatchSettled(ledgers, t)
    ensures MatchSettled(after, t)
  {
    assert Extends(ledgers[t], after[t]);
  }

  lemma {:induction false} WorldKeepsInv(worlds: seq<World>, acts: seq<Act>, i: nat)
    requires WorldRun(worlds, acts) && i < |worlds|
    ensures WorldInv(worlds[i])
  {
    hide Reachable, OnePlace, Webhooks.UniqueEvents, EventsSettled, CanHappen, Happen;
    if i == 0 {
      WorldStarts();
    } else {
      WorldKeepsInv(worlds, acts, i - 1);
      StepKeepsReachable(worlds[i - 1], acts[i - 1]);
      StepKeepsUnique(worlds[i - 1], acts[i - 1]);
      StepKeepsOnePlace(worlds[i - 1], acts[i - 1]);
      StepKeepsEventsSettled(worlds[i - 1], acts[i - 1]);
    }
  }

  // ---------- Theorems ----------

  lemma AtMostOne<T>(s: set<T>)
    requires forall x, y :: x in s && y in s ==> x == y
    ensures |s| <= 1
  {
    if s != {} {
      var x :| x in s;
      assert s == {x};
    }
  }

  /** Each (gateway, event id) has at most one record, and what waits in the queue for a
      record plus all `processEvent` calls ever started for it never exceed one. */
  lemma EventsAreProcessedAtMostOnce(worlds: seq<World>, acts: seq<Act>, i: nat, record: RecordId)
    requires WorldRun(worlds, acts) && i < |worlds|
    ensures Webhooks.UniqueEvents(worlds[i].events)
    ensures var w := worlds[i];
            w.queue[record] + |set v | v in w.pay.workers && w.pay.workers[v].record == record| <= 1
  {
    hide Reachable, EventsSettled;
    WorldKeepsInv(worlds, acts, i);
    var w := worlds[i];
    var calls := set v | v in w.pay.workers && w.pay.workers[v].record == record;
    forall v, u | v in calls && u in calls
      ensures v == u
    {
      assert Handles(w.pay.workers, v, record) && Handles(w.pay.workers, u, record);
    }
    AtMostOne(calls);
    if calls != {} {
      var v :| v in calls;
      assert Handles(w.pay.workers, v, record);
    }
  }

  /** An event marked processed for a matched row: the row is FAILED or RECONCILED then and
      ever after, whatever other runs do. */
  lemma ProcessedMeansSettled(worlds: seq<World>, acts: seq<Act>, i: nat, j: nat, record: RecordId, t: TxnId)
    requires WorldRun(worlds, acts) && i <= j < |worlds|
    requires record in worlds[i].matches && worlds[i].matches[record] == t
    ensures record in worlds[i].events && worlds[i].events[record].processed
    ensures t in worlds[i].pay.ledgers && Settled(worlds[i].pay.ledgers[t].row.currentState)
    ensures t in worlds[j].pay.ledgers && worlds[j].pay.ledgers[t].row == worlds[i].pay.ledgers[t].row
  {
    hide Reachable, OnePlace;
    WorldKeepsInv(worlds, acts, i);
    WorldGrows(worlds, acts, i, j);
    assert Extends(worlds[i].pay.ledgers[t], worlds[j].pay.ledgers[t]);
  }

  lemma {:induction false} WorldGrows(worlds: seq<World>, acts: seq<Act>, i: nat, j: nat)
    requires WorldRun(worlds, acts) && i <= j < |worlds|
    ensures Grows(worlds[i].pay.ledgers, worlds[j].pay.ledgers)
  {
    hide Reachable, OnePlace, Webhooks.UniqueEvents, EventsSettled, Extends, CanHappen, Happen;
    if i < j {
      WorldGrows(worlds, acts, i, j - 1);
      WorldKeepsInv(worlds, acts, j - 1);
      StepKeepsReachable(worlds[j - 1], acts[j - 1]);
      GrowsIsTransitive(worlds[i].pay.ledgers, worlds[j - 1].pay.ledgers, worlds[j].pay.ledgers);
    } else {
      GrowsIsReflexive(worlds[i].pay.ledgers);
    }
  }

  // ---------- The ids webhooks carry ----------

  /** The id a worker works with is the one its stored event carries. */
  predicate WorkerReadEvent(w: World, worker: WorkerId) {
    worker in w.pay.workers ==>
      var run := w.pay.workers[worker];
      run.pc.Lookup? || run.pc.Drive? ==>
        run.record in w.events && w.events[run.record].gateway == run.pc.gateway &&
        w.events[run.record].gatewayTxnId == Some(run.pc.gatewayTxnId)
  }

  lemma EventsKeepTheirIds(w: World, a: Act, r: RecordId)
    requires CanHappen(w, a) && r in w.events
    ensures r in Happen(w, a).events
    ensures Happen(w, a).events[r].gateway == w.events[r].gateway
    ensures Happen(w, a).events[r].gatewayTxnId == w.events[r].gatewayTxnId
    ensures Happen(w, a).events[r].payloadKey == w.events[r].payloadKey
  {
    hide Do, Enabled;
  }

  lemma WorkersLearnFromEvents(w: World, a: Act, worker: WorkerId)
    requires CanHappen(w, a) && worker in Happen(w, a).pay.workers
    requires Happen(w, a).pay.workers[worker].pc.Lookup? || Happen(w, a).pay.workers[worker].pc.Drive?
    ensures worker in w.pay.workers
    ensures var before, after := w.pay.workers[worker], Happen(w, a).pay.workers[worker];
            && after.record == before.record
            && (Knows(before.pc, after.pc.gateway, after.pc.gatewayTxnId) ||
                Found(w.events, before.record) == Extracted(after.pc.gateway, after.pc.gatewayTxnId))
  {
    hide Do, Enabled, Happen, Found;
    HappenPays(w, a);
    if PayAction(w, a).Some? {
      var action, after := PayAction(w, a).value, Happen(w, a).pay.workers[worker];
      IdsComeFromRecords(w.pay, action, worker, after.pc.gateway, after.pc.gatewayTxnId);
      WorkerKeepsItsRecord(w.pay, action, worker);
    }
  }

  lemma WorkerKeepsItsRecord(s: Sys, a: Action, worker: WorkerId)
    requires Enabled(s, a) && worker in s.workers
    ensures worker in Do(s, a).workers && Do(s, a).workers[worker].record == s.workers[worker].record
  {
    hide Allowed;
  }

  lemma {:induction false} WorkersReadEvents(worlds: seq<World>, acts: seq<Act>, i: nat, worker: WorkerId)
    requires WorldRun(worlds, acts) && i < |worlds|
    ensures WorkerReadEvent(worlds[i], worker)
  {
    hide Happen, CanHappen;
    if i == 0 {
    } else {
      var w, a := worlds[i - 1], acts[i - 1];
      WorkersReadEvents(worlds, acts, i - 1, worker);
      var workers := worlds[i].pay.workers;
      if worker in workers && (workers[worker].pc.Lookup? || workers[worker].pc.Drive?) {
        WorkersLearnFromEvents(w, a, worker);
        EventsKeepTheirIds(w, a, workers[worker].record);
      }
    }
  }

  /** Only actions of the payment protocol itself write rows. */
  lemma OnlyPayWrites(w: World, a: Act)
    requires CanHappen(w, a) && Happen(w, a).pay.ledgers != w.pay.ledgers
    ensures a.Pay? && Enabled(w.pay, a.action) && Happen(w, a).pay == Do(w.pay, a.action)
  {
    hide Happen, Enabled, DoInsert, DoWriteState, DoLogCreation, DoPush;
    HappenPays(w, a);
  }

  /** A paid row's `gatewayTxnId` is the answer to the last charge call for it, or the id
      carried by a webhook event that was delivered and stored. */
  lemma {:induction false} ReceiptIsAnswerOrDelivery(
      worlds: seq<World>, acts: seq<Act>, j: nat, t: TxnId, id: string) returns (k: nat)
    requires WorldRun(worlds, acts) && j < |worlds| && t in worlds[j].pay.ledgers
    requires worlds[j].pay.ledgers[t].row.gatewayTxnId == Some(id)
    ensures k < j && acts[k].Pay?
    ensures t in worlds[k].pay.ledgers && worlds[k].pay.ledgers[t].row.gatewayTxnId.None?
    ensures var w, action := worlds[k], acts[k].action;
            || PaidByItsRun(w.pay, action, t, id)
            || (PaidByWebhook(w.pay, action, t, id) &&
                var record := w.pay.workers[action.worker].record;
                record in w.events && w.events[record].gatewayTxnId == Some(id))
  {
    hide Reachable, Do, Happen, CanHappen;
    assert j > 0;
    k := j - 1;
    var w := worlds[k];
    if t in w.pay.ledgers && w.pay.ledgers[t].row.gatewayTxnId == Some(id) {
      k := ReceiptIsAnswerOrDelivery(worlds, acts, k, t, id);
    } else {
      OnlyPayWrites(w, acts[k]);
      WorldIsAProtocolState(worlds, acts, k);
      StepPays(w.pay, acts[k].action, t, id);
      if acts[k].action.Push? {
        WorkersReadEvents(worlds, acts, k, acts[k].action.worker);
      }
    }
  }

  /** Every theorem of the payment protocol holds in the world. */
  lemma WorldIsAProtocolState(worlds: seq<World>, acts: seq<Act>, i: nat)
    requires WorldRun(worlds, acts) && i < |worlds|
    ensures Reachable(worlds[i].pay)
  {
    hide Reachable;
    WorldKeepsInv(worlds, acts, i);
  }
}
