/** `RedisService`: a server that may fail at any call, expiring keys, and a one-way
    switch to an in-memory store that honours NX but knows no expiry. */
module Redis {
  import opened Lifecycle

  /** The two kinds of key in use; their texts have different prefixes. */
  datatype RedisKey =
    | Idempotency(key: string)
    | CircuitOpen(gateway: GatewayProvider)

  datatype RedisValue = ProcessingMark | CompletedWith(transaction: Transaction) | OpenMark

  datatype Mode = NX | XX

  /** A value on the server; `expiresAt` is the first moment it is gone. */
  datatype Stored = Stored(value: RedisValue, expiresAt: Option<Time>)

  datatype RedisState = RedisState(
    server: map<RedisKey, Stored>, mockStore: map<RedisKey, RedisValue>, isMockMode: bool)

  const EMPTY := RedisState(map[], map[], false)

  function OnServer(st: RedisState, key: RedisKey, now: Time): Option<RedisValue> {
    if key in st.server && (st.server[key].expiresAt.Some? ==> now < st.server[key].expiresAt.value)
    then Some(st.server[key].value)
    else None
  }

  /** What a GET would see in the present mode. */
  function Lookup(st: RedisState, key: RedisKey, now: Time): Option<RedisValue> {
    if st.isMockMode then (if key in st.mockStore then Some(st.mockStore[key]) else None)
    else OnServer(st, key, now)
  }

  /** A call that does not get through switches to the in-memory store. */
  function Tried(st: RedisState, up: bool): RedisState {
    if up then st else st.(isMockMode := true)
  }

  datatype SetAnswer = SetAnswer(st: RedisState, ok: bool)

  /** The server looks at the mode only when an expiry is given; the in-memory store
      ignores the expiry and the mode XX. */
  function SetResult(st: RedisState, key: RedisKey, value: RedisValue, mode: Option<Mode>, ttl: Option<Time>,
                     now: Time, up: bool): SetAnswer
  {
    var s := Tried(st, up);
    if s.isMockMode then
      if mode == Some(NX) && key in s.mockStore then SetAnswer(s, false)
      else SetAnswer(s.(mockStore := s.mockStore[key := value]), true)
    else if ttl.Some? && ((mode == Some(NX) && OnServer(s, key, now).Some?) ||
                          (mode == Some(XX) && OnServer(s, key, now).None?)) then
      SetAnswer(s, false)
    else
      var expiry := if ttl.Some? then Some(now + ttl.value) else None;
      SetAnswer(s.(server := s.server[key := Stored(value, expiry)]), true)
  }

  function DelResult(st: RedisState, key: RedisKey, up: bool): RedisState {
    var s := Tried(st, up);
    if s.isMockMode then s.(mockStore := s.mockStore - {key}) else s.(server := s.server - {key})
  }

  /** The state and the mode a call leaves when it is issued in `st` and gets through or not. */
  function InMode(st: RedisState, up: bool): RedisState {
    st.(isMockMode := st.isMockMode || !up)
  }

  lemma TriedIsInMode(st: RedisState, up: bool)
    ensures Tried(st, up) == InMode(st, up)
  {
  }

  /** What a SET does, told by what GETs find: on the server NX and XX count, and only with an
      expiry; in memory NX counts. A granted value is found until its time is over, in
      memory for good; a refused call, and any other key, is as before. */
  lemma SetMeans(st: RedisState, key: RedisKey, value: RedisValue, mode: Option<Mode>, ttl: Option<Time>,
                 now: Time, up: bool)
    ensures var issued := InMode(st, up);
            var present := Lookup(issued, key, now).Some?;
            var answer := SetResult(st, key, value, mode, ttl, now, up);
            && (answer.ok <==>
                  !(mode == Some(NX) && present && (issued.isMockMode || ttl.Some?)) &&
                  !(mode == Some(XX) && !present && !issued.isMockMode && ttl.Some?))
            && answer.st.isMockMode == issued.isMockMode
            && (!answer.ok ==> answer.st == issued)
            && (answer.ok ==> forall later: Time ::
                  Lookup(answer.st, key, later) ==
                  if issued.isMockMode || ttl.None? || later < now + ttl.value then Some(value) else None)
            && forall other: RedisKey, later: Time ::
                 other != key ==> Lookup(answer.st, other, later) == Lookup(issued, other, later)
  {
  }

  /** A DEL leaves nothing to find under the key in the mode of the call, and all else. */
  lemma DelMeans(st: RedisState, key: RedisKey, up: bool)
    ensures var issued, after := InMode(st, up), DelResult(st, key, up);
            && after.isMockMode == issued.isMockMode
            && (forall later: Time :: Lookup(after, key, later) == None)
            && forall other: RedisKey, later: Time ::
                 other != key ==> Lookup(after, other, later) == Lookup(issued, other, later)
  {
  }

  class RedisService {
    var server: map<RedisKey, Stored>
    var mockStore: map<RedisKey, RedisValue>
    var isMockMode: bool

    function State(): RedisState
      reads this
    {
      RedisState(server, mockStore, isMockMode)
    }

    constructor ()
      ensures State() == EMPTY
    {
      server, mockStore, isMockMode := map[], map[], false;
    }

    /** `up` tells whether the server can be reached by this call. */
    method Get(key: RedisKey, now: Time, up: bool) returns (value: Option<RedisValue>)
      modifies this`isMockMode
      ensures State() == Tried(old(State()), up)
      ensures value == Lookup(State(), key, now)
    {
      value := Await(key, isMockMode, now, up);
    }

    /** The answer to a GET that was issued while the mode was `inMemory`; of several GETs
        in flight each has its own. */
    method Await(key: RedisKey, inMemory: bool, now: Time, up: bool) returns (value: Option<RedisValue>)
      requires inMemory ==> isMockMode
      modifies this`isMockMode
      ensures State() == Tried(old(State()), inMemory || up)
      ensures value == Lookup(old(State()).(isMockMode := inMemory || !up), key, now)
    {
      if inMemory {
        return if key in mockStore then Some(mockStore[key]) else None;
      }
      if up {
        return OnServer(State(), key, now);
      }
      isMockMode := true;
      return if key in mockStore then Some(mockStore[key]) else None;
    }

    method Set(key: RedisKey, value: RedisValue, mode: Option<Mode>, ttl: Option<Time>, now: Time, up: bool)
      returns (ok: bool)
      modifies this
      ensures SetAnswer(State(), ok) == SetResult(old(State()), key, value, mode, ttl, now, up)
    {
      if isMockMode {
        if mode == Some(NX) && key in mockStore {
          return false;
        }
        mockStore := mockStore[key := value];
        return true;
      }
      if up {
        var present := OnServer(State(), key, now).Some?;
        if mode.Some? && ttl.Some? {
          if (mode.value.NX? && present) || (mode.value.XX? && !present) {
            return false;
          }
          server := server[key := Stored(value, Some(now + ttl.value))];
          return true;
        }
        if ttl.Some? {
          server := server[key := Stored(value, Some(now + ttl.value))];
          return true;
        }
        server := server[key := Stored(value, None)];
        return true;
      }
      isMockMode := true;
      if mode == Some(NX) && key in mockStore {
        return false;
      }
      mockStore := mockStore[key := value];
      return true;
    }

    method Del(key: RedisKey, up: bool)
      modifies this
      ensures State() == DelResult(old(State()), key, up)
    {
      if !isMockMode && up {
        server := server - {key};
      } else {
        isMockMode := true;
        mockStore := mockStore - {key};
      }
    }
  }

  // ---------- Sequences of calls ----------

  datatype Call =
    | GetCall(key: RedisKey, now: Time, up: bool)
    | SetCall(key: RedisKey, value: RedisValue, mode: Option<Mode>, ttl: Option<Time>, now: Time, up: bool)
    | DelCall(key: RedisKey, up: bool)

  function After(st: RedisState, c: Call): RedisState {
    match c
    case GetCall(_, _, up) => Tried(st, up)
    case SetCall(key, value, mode, ttl, now, up) => SetResult(st, key, value, mode, ttl, now, up).st
    case DelCall(key, up) => DelResult(st, key, up)
  }

  function AfterAll(st: RedisState, calls: seq<Call>): RedisState {
    if calls == [] then st else After(AfterAll(st, calls[..|calls| - 1]), calls[|calls| - 1])
  }

  predicate HasSet(calls: seq<Call>, key: RedisKey, value: RedisValue) {
    exists c <- calls :: c.SetCall? && c.key == key && c.value == value
  }

  predicate HoldsWritten(st: RedisState, calls: seq<Call>) {
    && (forall k :: k in st.server ==> HasSet(calls, k, st.server[k].value))
    && (forall k :: k in st.mockStore ==> HasSet(calls, k, st.mockStore[k]))
  }

  lemma HasSetGrows(calls: seq<Call>, c: Call, key: RedisKey, value: RedisValue)
    requires HasSet(calls, key, value) || (c.SetCall? && c.key == key && c.value == value)
    ensures HasSet(calls + [c], key, value)
  {
    if HasSet(calls, key, value) {
      var d :| d in calls && d.SetCall? && d.key == key && d.value == value;
      assert d in calls + [c];
    } else {
      assert c in calls + [c];
    }
  }

  lemma CallHoldsWritten(st: RedisState, calls: seq<Call>, c: Call)
    requires HoldsWritten(st, calls)
    ensures HoldsWritten(After(st, c), calls + [c])
  {
    var after := After(st, c);
    forall k | k in after.server
      ensures HasSet(calls + [c], k, after.server[k].value)
    {
      HasSetGrows(calls, c, k, after.server[k].value);
    }
    forall k | k in after.mockStore
      ensures HasSet(calls + [c], k, after.mockStore[k])
    {
      HasSetGrows(calls, c, k, after.mockStore[k]);
    }
  }

  lemma {:induction false} StoresHoldWrittenValues(calls: seq<Call>)
    ensures HoldsWritten(AfterAll(EMPTY, calls), calls)
  {
    if calls == [] {
    } else {
      var n := |calls| - 1;
      StoresHoldWrittenValues(calls[..n]);
      CallHoldsWritten(AfterAll(EMPTY, calls[..n]), calls[..n], calls[n]);
      assert calls == calls[..n] + [calls[n]];
    }
  }

  /** After any calls, at any failures and times, an answer is a value that was once set
      under that key. This is all the protocol assumes of Redis. */
  lemma AnswersWereWritten(calls: seq<Call>, key: RedisKey, now: Time)
    ensures var answer := Lookup(AfterAll(EMPTY, calls), key, now);
            answer.Some? ==> HasSet(calls, key, answer.value)
  {
    StoresHoldWrittenValues(calls);
  }

  /** Once in memory, always in memory, and the server's content is left as it was. */
  lemma {:induction false} TheSwitchIsOneWay(st: RedisState, calls: seq<Call>)
    requires st.isMockMode
    ensures AfterAll(st, calls).isMockMode && AfterAll(st, calls).server == st.server
  {
    if calls == [] {
    } else {
      TheSwitchIsOneWay(st, calls[..|calls| - 1]);
    }
  }

  /** Calls that leave a lock alone: they reach the server, and neither delete the key
      nor overwrite it unconditionally. */
  predicate Respects(c: Call, key: RedisKey, deadline: Time) {
    match c
    case GetCall(_, _, up) => up
    case SetCall(k, _, mode, ttl, now, up) => up && (k == key ==> mode == Some(NX) && ttl.Some? && now < deadline)
    case DelCall(k, up) => up && k != key
  }

  /** As long as a granted lock is not deleted or overwritten and Redis does not fail, it is
      refused to everyone else exactly until it expires. */
  lemma {:induction false} LockExcludesUntilItEnds(
      st: RedisState, key: RedisKey, value: RedisValue, ttl: Time, now: Time, calls: seq<Call>, later: Time)
    requires !st.isMockMode && SetResult(st, key, value, Some(NX), Some(ttl), now, true).ok
    requires forall c <- calls :: Respects(c, key, now + ttl)
    ensures var held := AfterAll(SetResult(st, key, value, Some(NX), Some(ttl), now, true).st, calls);
            && !held.isMockMode
            && key in held.server && held.server[key] == Stored(value, Some(now + ttl))
            && forall v: RedisValue, t: Time ::
                 SetResult(held, key, v, Some(NX), Some(t), later, true).ok <==> later >= now + ttl
  {
    if calls == [] {
    } else {
      var n := |calls| - 1;
      assert forall c <- calls[..n] :: c in calls;
      LockExcludesUntilItEnds(st, key, value, ttl, now, calls[..n], later);
      assert calls[n] in calls && Respects(calls[n], key, now + ttl);
    }
  }
}
