/** Webhook ingestion: stored once for each (gateway, event id), then queued by record id
    on a queue that may lose entries. */
module Webhooks {
  import opened Lifecycle

  /** `gatewayTxnId` is what `extractGatewayTxnId` finds in the payload, `payloadKey` the
      idempotency key the payload carries. */
  datatype WebhookEvent = WebhookEvent(
    gateway: GatewayProvider,
    eventId: string,
    gatewayTxnId: Option<string>,
    payloadKey: Option<string>,
    processed: bool)

  datatype IncomingWebhook = IncomingWebhook(
    gateway: GatewayProvider, eventId: string, gatewayTxnId: Option<string>, payloadKey: Option<string>)

  function Stored(e: IncomingWebhook): WebhookEvent {
    WebhookEvent(e.gateway, e.eventId, e.gatewayTxnId, e.payloadKey, false)
  }

  predicate Seen(events: map<RecordId, WebhookEvent>, gateway: GatewayProvider, eventId: string) {
    exists r :: r in events && events[r].gateway == gateway && events[r].eventId == eventId
  }

  /** The unique index of the table. */
  predicate UniqueEvents(events: map<RecordId, WebhookEvent>) {
    forall r, q ::
      (r in events && q in events && events[r].gateway == events[q].gateway && events[r].eventId == events[q].eventId)
      ==> r == q
  }

  // ---------- The queue ----------

  /** The Redis list and the one slot the in-memory client keeps instead. */
  datatype Queue = Queue(list: seq<RecordId>, slot: Option<RecordId>)

  function Waiting(q: Queue): multiset<RecordId> {
    multiset(q.list) + if q.slot.Some? then multiset{q.slot.value} else multiset{}
  }

  /** What one `brpop` takes: the oldest entry of the list, or the slot. */
  function Taken(q: Queue, isMockMode: bool, up: bool): Option<RecordId> {
    if isMockMode then q.slot
    else if up && q.list != [] then Some(q.list[|q.list| - 1])
    else None
  }

  function AfterPop(q: Queue, isMockMode: bool, up: bool): Queue {
    if isMockMode then q.(slot := None)
    else if up && q.list != [] then q.(list := q.list[..|q.list| - 1])
    else q
  }

  /** The queue after some turns of polling, each in its own mode and reachability. */
  function AfterPops(q: Queue, isMockMode: nat -> bool, up: nat -> bool, turns: nat): Queue {
    if turns == 0 then q else AfterPop(AfterPops(q, isMockMode, up, turns - 1), isMockMode(turns - 1), up(turns - 1))
  }

  /** The entries these turns take, in order. */
  function TakenIn(q: Queue, isMockMode: nat -> bool, up: nat -> bool, turns: nat): seq<RecordId> {
    if turns == 0 then []
    else
      var last := Taken(AfterPops(q, isMockMode, up, turns - 1), isMockMode(turns - 1), up(turns - 1));
      TakenIn(q, isMockMode, up, turns - 1) + if last.Some? then [last.value] else []
  }

  /** The turns that reach the server. */
  function Served(isMockMode: nat -> bool, up: nat -> bool, turns: nat): nat {
    if turns == 0 then 0
    else Served(isMockMode, up, turns - 1) + if !isMockMode(turns - 1) && up(turns - 1) then 1 else 0
  }

  /** Polling neither loses nor repeats an entry. */
  lemma {:induction false} PollingConserves(q: Queue, isMockMode: nat -> bool, up: nat -> bool, turns: nat)
    ensures Waiting(AfterPops(q, isMockMode, up, turns)) + multiset(TakenIn(q, isMockMode, up, turns)) == Waiting(q)
  {
    if turns == 0 {
    } else {
      PollingConserves(q, isMockMode, up, turns - 1);
      PopConserves(AfterPops(q, isMockMode, up, turns - 1), isMockMode(turns - 1), up(turns - 1));
    }
  }

  lemma PopConserves(q: Queue, isMockMode: bool, up: bool)
    ensures var t := Taken(q, isMockMode, up);
            Waiting(AfterPop(q, isMockMode, up)) + (if t.Some? then multiset{t.value} else multiset{}) == Waiting(q)
  {
    if !isMockMode && up && q.list != [] {
      LastIsOne(q.list);
    }
  }

  lemma LastIsOne(list: seq<RecordId>)
    requires list != []
    ensures multiset(list) == multiset(list[..|list| - 1]) + multiset{list[|list| - 1]}
  {
    assert list == list[..|list| - 1] + [list[|list| - 1]];
  }

  /** Whenever Redis fails or goes to memory, every turn that reaches the server takes the
      oldest entry left in the list, and any turn in memory empties the slot. */
  lemma {:induction false} PollingDrains(q: Queue, isMockMode: nat -> bool, up: nat -> bool, turns: nat)
    ensures var served, n := Served(isMockMode, up, turns), |q.list|;
            AfterPops(q, isMockMode, up, turns) ==
            Queue(q.list[..if served < n then n - served else 0],
                  if exists k: nat :: k < turns && isMockMode(k) then None else q.slot)
  {
    if turns == 0 {
      assert q.list[..|q.list|] == q.list;
    } else {
      PollingDrains(q, isMockMode, up, turns - 1);
      assert isMockMode(turns - 1) ==> exists k: nat :: k < turns && isMockMode(k);
    }
  }

  /** Without the in-memory client, entries leave in the order in which they were pushed. */
  lemma {:induction false} PollingIsFirstInFirstOut(
      q: Queue, isMockMode: nat -> bool, up: nat -> bool, turns: nat, i: nat)
    requires forall k: nat :: k < turns ==> !isMockMode(k)
    requires i < |TakenIn(q, isMockMode, up, turns)|
    ensures var served := Served(isMockMode, up, turns);
            && |TakenIn(q, isMockMode, up, turns)| == (if served < |q.list| then served else |q.list|)
            && TakenIn(q, isMockMode, up, turns)[i] == q.list[|q.list| - 1 - i]
  {
    CountTaken(q, isMockMode, up, turns);
    if i < |TakenIn(q, isMockMode, up, turns - 1)| {
      PollingIsFirstInFirstOut(q, isMockMode, up, turns - 1, i);
    } else {
      CountTaken(q, isMockMode, up, turns - 1);
      PollingDrains(q, isMockMode, up, turns - 1);
    }
  }

  lemma {:induction false} CountTaken(q: Queue, isMockMode: nat -> bool, up: nat -> bool, turns: nat)
    requires forall k: nat :: k < turns ==> !isMockMode(k)
    ensures var served := Served(isMockMode, up, turns);
            |TakenIn(q, isMockMode, up, turns)| == if served < |q.list| then served else |q.list|
  {
    if turns == 0 {
    } else {
      CountTaken(q, isMockMode, up, turns - 1);
      PollingDrains(q, isMockMode, up, turns - 1);
    }
  }

  class ReconciliationQueue {
    var list: seq<RecordId>
    var slot: Option<RecordId>

    function State(): Queue
      reads this
    {
      Queue(list, slot)
    }

    constructor ()
      ensures State() == Queue([], None)
    {
      list, slot := [], None;
    }

    /** `lpush` of the server's client, or of the in-memory one, which overwrites. */
    method PushEvent(id: RecordId, isMockMode: bool, up: bool) returns (ok: bool)
      modifies this
      ensures ok <==> isMockMode || up
      ensures !ok ==> State() == old(State())
      ensures ok ==> State() == if isMockMode then Queue(old(list), Some(id)) else Queue([id] + old(list), old(slot))
      ensures ok ==> id in Waiting(State()) && Waiting(State()) <= Waiting(old(State())) + multiset{id}
    {
      if isMockMode {
        slot := Some(id);
        return true;
      }
      if up {
        list := [id] + list;
        return true;
      }
      return false;
    }

    /** `brpop`; a call that does not reach the server throws. */
    method Pop(isMockMode: bool, up: bool) returns (id: Option<RecordId>, failed: bool)
      modifies this
      ensures failed <==> !isMockMode && !up
      ensures id == Taken(old(State()), isMockMode, up)
      ensures State() == AfterPop(old(State()), isMockMode, up)
      ensures Waiting(State()) + (if id.Some? then multiset{id.value} else multiset{}) == Waiting(old(State()))
    {
      PopConserves(State(), isMockMode, up);
      if isMockMode {
        id := slot;
        slot := None;
        return id, false;
      }
      if !up {
        return None, true;
      }
      if list == [] {
        return None, false;
      }
      var last := |list| - 1;
      id := Some(list[last]);
      list := list[..last];
      return id, false;
    }
  }

  datatype Receipt = Receipt(duplicate: bool, record: Option<RecordId>)

  class WebhooksService {
    const queueService: ReconciliationQueue
    var events: map<RecordId, WebhookEvent>

    constructor (queueService: ReconciliationQueue)
      ensures this.queueService == queueService && events == map[]
    {
      this.queueService := queueService;
      events := map[];
    }

    /** An event already stored is acknowledged without a second record or push; a failed
        push leaves the stored record behind, unqueued. */
    method Ingest(event: IncomingWebhook, id: RecordId, isMockMode: bool, up: bool) returns (r: Option<Receipt>)
      requires id !in events && UniqueEvents(events)
      modifies this, queueService
      ensures UniqueEvents(events)
      ensures r == Some(Receipt(true, None)) <==>
                exists q :: q in old(events) && old(events)[q].gateway == event.gateway &&
                            old(events)[q].eventId == event.eventId
      ensures Seen(old(events), event.gateway, event.eventId) ==>
                && r == Some(Receipt(true, None))
                && events == old(events) && queueService.State() == old(queueService.State())
      ensures !Seen(old(events), event.gateway, event.eventId) ==>
                && events == old(events)[id := WebhookEvent(event.gateway, event.eventId, event.gatewayTxnId,
                                                            event.payloadKey, false)]
                && (r.None? ==> queueService.State() == old(queueService.State()) && !isMockMode && !up)
                && (r.Some? ==> r == Some(Receipt(false, Some(id))) && id in Waiting(queueService.State()))
    {
      if q :| q in events && events[q].gateway == event.gateway && events[q].eventId == event.eventId {
        return Some(Receipt(true, None));
      }
      events := events[id := Stored(event)];
      var pushed := queueService.PushEvent(id, isMockMode, up);
      if !pushed {
        return None;
      }
      return Some(Receipt(false, Some(id)));
    }
  }
}
