/** What one datum from a server, and one link change, do to the session table. */
module FanOut {
  import opened Wire
  import opened GatewayModel
  import opened GatewayInvariant
  import opened GatewaySteps

  predicate TiedTo(s: State, key: Key, st: StreamRef) {
    key in s.store && s.store[key].stream.upstream == Some(st)
  }

  // The call that carries a reply to the client of a stored session.
  function ReplyTo(s: State, key: Key, data: DataBuffer): Output
    requires key in s.store
  {
    Output(key.device, FromServer(key.client, data), s.store[key].stream.id)
  }

  // One reply for every session tied to the stream, none for another session.
  ghost predicate ExactReplies(s: State, st: StreamRef, data: DataBuffer, made: seq<Output>) {
    && (forall i :: 0 <= i < |made| ==>
          && made[i].session < |s.sessions|
          && TiedTo(s, s.sessions[made[i].session].key, st)
          && made[i] == ReplyTo(s, s.sessions[made[i].session].key, data))
    && (forall key :: TiedTo(s, key, st) ==> ReplyTo(s, key, data) in made)
    && (forall i, j :: 0 <= i < j < |made| ==> made[i].session != made[j].session)
  }

  function RepliesTo(sessions: seq<Session>, listeners: seq<SessionId>, data: DataBuffer): seq<Output> {
    if listeners == [] then []
    else if listeners[0] >= |sessions| then RepliesTo(sessions, listeners[1..], data)
    else
      var key := sessions[listeners[0]].key;
      [Output(key.device, FromServer(key.client, data), listeners[0])] + RepliesTo(sessions, listeners[1..], data)
  }

  lemma {:induction false} RepliesAt(sessions: seq<Session>, listeners: seq<SessionId>, data: DataBuffer, i: nat)
    requires forall i :: 0 <= i < |listeners| ==> listeners[i] < |sessions|
    requires i < |listeners|
    ensures |RepliesTo(sessions, listeners, data)| == |listeners|
    ensures var key := sessions[listeners[i]].key;
      RepliesTo(sessions, listeners, data)[i] == Output(key.device, FromServer(key.client, data), listeners[i])
  {
    if |listeners| > 1 {
      RepliesAt(sessions, listeners[1..], data, if i == 0 then 0 else i - 1);
    }
  }

  lemma {:induction false} DeliverAllIs(s: State, listeners: seq<SessionId>, data: DataBuffer, now: TimePoint)
    requires StoreOk(s.store, s.sessions)
    requires forall i :: 0 <= i < |listeners| ==> Live(s, listeners[i])
    ensures var t := DeliverAll(s, listeners, data, now);
      && t == s.(store := t.store, outputs := s.outputs + RepliesTo(s.sessions, listeners, data))
      && t.store.Keys == s.store.Keys
      && (forall k :: k in s.store ==>
            t.store[k] == if s.store[k].stream.id in listeners then s.store[k].(lastUsed := now) else s.store[k])
    decreases |listeners|
  {
    if listeners != [] {
      assert Live(s, listeners[0]);
      DeliverFirst(s, listeners, data, now);
      var key := s.sessions[listeners[0]].key;
      DeliverAllIs(OutData(s, key, data, now), listeners[1..], data, now);
      DeliveredOnce(s, listeners, key);
      DeliveredFirst(s.store, DeliverAll(s, listeners, data, now).store, listeners, key, now);
    }
  }

  lemma {:induction false} DeliveredFirst(store: Store, store': Store, listeners: seq<SessionId>, key: Key,
                                          now: TimePoint)
    requires listeners != [] && key in store && store'.Keys == store.Keys
    requires forall k :: k in store ==>
      (store[k].stream.id in listeners <==> k == key || store[k].stream.id in listeners[1..])
    requires var store1 := store[key := store[key].(lastUsed := now)];
      forall k :: k in store1 ==>
        store'[k] == if store1[k].stream.id in listeners[1..] then store1[k].(lastUsed := now) else store1[k]
    ensures forall k :: k in store ==>
      store'[k] == if store[k].stream.id in listeners then store[k].(lastUsed := now) else store[k]
  {
    forall k | k in store
      ensures store'[k] == if store[k].stream.id in listeners then store[k].(lastUsed := now) else store[k]
    {
      assert k in store[key := store[key].(lastUsed := now)];
    }
  }

  lemma {:induction false} DeliverFirst(s: State, listeners: seq<SessionId>, data: DataBuffer, now: TimePoint)
    requires StoreOk(s.store, s.sessions) && listeners != [] && Live(s, listeners[0])
    requires forall i :: 0 <= i < |listeners| ==> Live(s, listeners[i])
    ensures var key := s.sessions[listeners[0]].key; var s1 := OutData(s, key, data, now);
      && key in s.store
      && s1.store == s.store[key := s.store[key].(lastUsed := now)]
      && StoreOk(s1.store, s1.sessions)
      && (forall i :: 0 <= i < |listeners[1..]| ==> Live(s1, listeners[1..][i]))
      && s1.outputs + RepliesTo(s.sessions, listeners[1..], data) == s.outputs + RepliesTo(s.sessions, listeners, data)
  {
    assert Live(s, listeners[0]);
    var s1 := OutData(s, s.sessions[listeners[0]].key, data, now);
    forall k | k in s1.store ensures EntryOk(k, s1.store[k], s1.sessions) {
      assert EntryOk(k, s.store[k], s.sessions);
    }
    forall i | 0 <= i < |listeners[1..]| ensures Live(s1, listeners[1..][i]) {
      assert Live(s, listeners[i + 1]);
    }
  }

  lemma {:induction false} DeliveredOnce(s: State, listeners: seq<SessionId>, key: Key)
    requires StoreOk(s.store, s.sessions) && listeners != [] && Live(s, listeners[0])
    requires key == s.sessions[listeners[0]].key
    ensures forall k :: k in s.store ==>
      (s.store[k].stream.id in listeners <==> k == key || s.store[k].stream.id in listeners[1..])
  {
    forall k | k in s.store
      ensures s.store[k].stream.id in listeners <==> k == key || s.store[k].stream.id in listeners[1..]
    {
      assert EntryOk(k, s.store[k], s.sessions);
      assert listeners == [listeners[0]] + listeners[1..];
    }
  }

  lemma {:induction false} ListenersLive(s: State, st: StreamRef)
    requires StoreOk(s.store, s.sessions) && ListenersOk(s.store, s.sessions, s.streams) && st < |s.streams|
    ensures forall g :: g in s.streams[st].listeners ==> Live(s, g) && TiedTo(s, s.sessions[g].key, st)
    ensures forall i :: 0 <= i < |s.streams[st].listeners| ==>
      Live(s, s.streams[st].listeners[i]) && TiedTo(s, s.sessions[s.streams[st].listeners[i]].key, st)
    ensures forall k :: TiedTo(s, k, st) <==> k in s.store && s.store[k].stream.id in s.streams[st].listeners
  {
    forall g | g in s.streams[st].listeners ensures Live(s, g) && TiedTo(s, s.sessions[g].key, st) {
      assert ListenerOk(g, st, s.store, s.sessions);
    }
    forall k | k in s.store ensures TiedTo(s, k, st) <==> s.store[k].stream.id in s.streams[st].listeners {
      assert TiedOk(s.store[k].stream, s.streams) && EntryOk(k, s.store[k], s.sessions);
    }
  }

  /** A datum touches exactly the sessions tied to its stream and changes nothing but the outputs. */
  lemma {:induction false} ReplyIs(h: EndpointsHash, s: State, st: StreamRef, data: DataBuffer, now: TimePoint)
    requires Inv(h, s) && st < |s.streams|
    ensures var t := Reply(s, st, data, now);
      && t == s.(store := t.store, outputs := s.outputs + RepliesTo(s.sessions, s.streams[st].listeners, data))
      && t.store.Keys == s.store.Keys
      && (forall k :: k in s.store ==>
            t.store[k] == if TiedTo(s, k, st) then s.store[k].(lastUsed := now) else s.store[k])
  {
    ListenersLive(s, st);
    DeliverAllIs(s, s.streams[st].listeners, data, now);
  }

  lemma {:induction false} FanOutIn(h: EndpointsHash, s: State, st: StreamRef, data: DataBuffer, now: TimePoint)
    requires Inv(h, s) && st < |s.streams|
    ensures var all := Reply(s, st, data, now).outputs;
      && s.outputs <= all
      && ExactReplies(s, st, data, all[|s.outputs|..])
  {
    ReplyIs(h, s, st, data, now);
    ListenersLive(s, st);
    assert NoDuplicates(s.streams[st].listeners);
    var all := Reply(s, st, data, now).outputs;
    assert all[|s.outputs|..] == RepliesTo(s.sessions, s.streams[st].listeners, data);
    forall key | TiedTo(s, key, st) ensures s.sessions[s.store[key].stream.id].key == key {
      assert EntryOk(key, s.store[key], s.sessions);
    }
    RepliesExact(s, st, data);
  }

  lemma {:induction false} RepliesExact(s: State, st: StreamRef, data: DataBuffer)
    requires st < |s.streams| && NoDuplicates(s.streams[st].listeners)
    requires forall i :: 0 <= i < |s.streams[st].listeners| ==>
      Live(s, s.streams[st].listeners[i]) && TiedTo(s, s.sessions[s.streams[st].listeners[i]].key, st)
    requires forall key :: TiedTo(s, key, st) ==>
      && s.store[key].stream.id in s.streams[st].listeners
      && s.store[key].stream.id < |s.sessions| && s.sessions[s.store[key].stream.id].key == key
    ensures ExactReplies(s, st, data, RepliesTo(s.sessions, s.streams[st].listeners, data))
  {
    var listeners := s.streams[st].listeners;
    var made := RepliesTo(s.sessions, listeners, data);
    if listeners != [] {
      forall i | 0 <= i < |listeners|
        ensures |made| == |listeners| && made[i] == ReplyTo(s, s.sessions[listeners[i]].key, data)
      {
        assert Live(s, listeners[i]);
        RepliesAt(s.sessions, listeners, data, i);
      }
      assert |made| == |listeners| by {
        RepliesAt(s.sessions, listeners, data, 0);
      }
    }
    forall key | TiedTo(s, key, st) ensures ReplyTo(s, key, data) in made {
      var i :| 0 <= i < |listeners| && listeners[i] == s.store[key].stream.id;
      assert made[i] == ReplyTo(s, key, data);
    }
  }

  /**
   In every reachable state one datum on a server stream makes exactly one output
   for each stored session tied to that stream, with the device and the client of
   its key, and none for anybody else.
   */
  lemma {:induction false} ExactFanOut(h: EndpointsHash, events: seq<Event>, st: StreamRef, data: DataBuffer,
                                       now: TimePoint)
    requires st < |Run(h, EMPTY, events).streams|
    ensures var s := Run(h, EMPTY, events);
      var all := Step(h, s, Replied(st, data, now)).outputs;
      && s.outputs <= all
      && ExactReplies(s, st, data, all[|s.outputs|..])
  {
    Reachable(h, events);
    FanOutIn(h, Run(h, EMPTY, events), st, data, now);
  }

  /* ---- Link changes ---- */

  lemma {:induction false} NotifyHealthy(s: State, st: StreamRef, listeners: seq<SessionId>)
    requires st < |s.streams| && s.streams[st].link != LinkError
    requires forall i :: 0 <= i < |listeners| ==> Live(s, listeners[i]) && TiedTo(s, s.sessions[listeners[i]].key, st)
    ensures NotifyAll(s, listeners) == s
    decreases |listeners|
  {
    if listeners != [] {
      assert Live(s, listeners[0]);
      NotifyHealthy(s, st, listeners[1..]);
    }
  }

  lemma {:induction false} EraseFirst(s: State, st: StreamRef)
    requires StoreOk(s.store, s.sessions) && ListenersOk(s.store, s.sessions, s.streams)
    requires st < |s.streams| && s.streams[st].link == LinkError && s.streams[st].listeners != []
    ensures var g := s.streams[st].listeners[0];
      && g < |s.sessions|
      && (var key := s.sessions[g].key;
          var s1 := StreamState(s, key);
          && TiedTo(s, key, st)
          && s1 == s.(store := s.store - {key}, streams := s1.streams)
          && s1.streams == s.streams[st := s.streams[st].(listeners := s.streams[st].listeners[1..])]
          && StoreOk(s1.store, s1.sessions) && ListenersOk(s1.store, s1.sessions, s1.streams))
  {
    ListenersLive(s, st);
    var g := s.streams[st].listeners[0];
    assert g in s.streams[st].listeners && Live(s, g);
    EraseListeners(s, s.sessions[g].key);
  }

  // The sessions of a broken stream are erased one by one, until none is left.
  lemma {:induction false} NotifyBroken(s: State, st: StreamRef)
    requires StoreOk(s.store, s.sessions) && ListenersOk(s.store, s.sessions, s.streams)
    requires st < |s.streams| && s.streams[st].link == LinkError
    ensures var t := NotifyAll(s, s.streams[st].listeners);
      && t == s.(store := t.store, streams := t.streams)
      && (forall k :: k in t.store <==> k in s.store && !TiedTo(s, k, st))
      && (forall k :: k in t.store ==> t.store[k] == s.store[k])
      && t.streams == s.streams[st := s.streams[st].(listeners := [])]
    decreases |s.streams[st].listeners|
  {
    var listeners := s.streams[st].listeners;
    if listeners == [] {
      ListenersLive(s, st);
      assert s.streams[st := s.streams[st].(listeners := [])] == s.streams;
    } else {
      EraseFirst(s, st);
      var key := s.sessions[listeners[0]].key;
      var s1 := StreamState(s, key);
      NotifyBroken(s1, st);
      assert forall k :: TiedTo(s, k, st) <==> k == key || TiedTo(s1, k, st);
    }
  }

  /** A link error erases exactly the sessions tied to the stream. */
  lemma {:induction false} LinkErrorIs(h: EndpointsHash, s: State, st: StreamRef)
    requires Inv(h, s) && st < |s.streams|
    ensures var t := SetLink(s, st, LinkError);
      && t == s.(store := t.store, streams := t.streams)
      && t.store == (map k | k in s.store && !TiedTo(s, k, st) :: s.store[k])
      && t.streams == s.streams[st := s.streams[st].(link := LinkError, listeners := [])]
  {
    var s1 := s.(streams := s.streams[st := s.streams[st].(link := LinkError)]);
    LinkKeeps(h, s, st, LinkError);
    NotifyBroken(s1, st);
  }

  /** Any other link change touches no session. */
  lemma {:induction false} LinkHealthyIs(h: EndpointsHash, s: State, st: StreamRef, link: LinkState)
    requires Inv(h, s) && st < |s.streams| && link != LinkError
    ensures SetLink(s, st, link) == s.(streams := s.streams[st := s.streams[st].(link := link)])
  {
    ListenersLive(s, st);
    NotifyHealthy(s.(streams := s.streams[st := s.streams[st].(link := link)]), st, s.streams[st].listeners);
  }

  /** Replies and link changes tie nobody and write nothing. */
  lemma {:induction false} StreamEventFrame(h: EndpointsHash, s: State, e: Event)
    requires Inv(h, s) && (e.Replied? || e.LinkChanged?)
    ensures var t := Step(h, s, e);
      && t == s.(store := t.store, streams := t.streams, outputs := t.outputs)
      && |t.streams| == |s.streams|
      && (forall st :: 0 <= st < |s.streams| ==>
            t.streams[st].server == s.streams[st].server && t.streams[st].received == s.streams[st].received)
      && (forall k :: k in t.store ==> k in s.store && t.store[k].stream == s.store[k].stream)
  {
    match e
    case Replied(st, data, now) => RepliedFrame(h, s, st, data, now);
    case LinkChanged(st, link) => LinkChangedFrame(h, s, st, link);
  }

  lemma {:induction false} RepliedFrame(h: EndpointsHash, s: State, st: StreamRef, data: DataBuffer, now: TimePoint)
    requires Inv(h, s)
    ensures var t := Step(h, s, Replied(st, data, now));
      && t == s.(store := t.store, outputs := t.outputs)
      && (forall k :: k in t.store ==> k in s.store && t.store[k].stream == s.store[k].stream)
  {
    if st < |s.streams| {
      ReplyIs(h, s, st, data, now);
    }
  }

  lemma {:induction false} LinkChangedFrame(h: EndpointsHash, s: State, st: StreamRef, link: LinkState)
    requires Inv(h, s)
    ensures var t := Step(h, s, LinkChanged(st, link));
      && t == s.(store := t.store, streams := t.streams)
      && |t.streams| == |s.streams|
      && (forall st' :: 0 <= st' < |s.streams| ==>
            t.streams[st'].server == s.streams[st'].server && t.streams[st'].received == s.streams[st'].received)
      && (forall k :: k in t.store ==> k in s.store && t.store[k].stream == s.store[k].stream)
  {
    if st < |s.streams| && link == LinkError {
      LinkErrorIs(h, s, st);
    } else if st < |s.streams| {
      LinkHealthyIs(h, s, st, link);
    }
  }
}
