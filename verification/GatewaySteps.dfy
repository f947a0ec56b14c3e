/** Every event keeps the gateway's invariant, so every reachable state satisfies it. */
module GatewaySteps {
  import opened Wire
  import opened Flatten
  import opened GatewayModel
  import opened GatewayInvariant

  /* ---- The parts of a step ---- */

  lemma {:induction false} SessionsBounded(h: EndpointsHash, s: State)
    requires Inv(h, s)
    ensures forall g :: 0 <= g < |s.sessions| && s.sessions[g].upstream.Some? ==> s.sessions[g].upstream.value < |s.streams|
    ensures forall st :: 0 <= st < |s.streams| ==> s.streams[st].sent <= |s.streams[st].received|
  {
    forall g | 0 <= g < |s.sessions| ensures s.sessions[g].upstream.Some? ==> s.sessions[g].upstream.value < |s.streams| {
      assert SessionOk(h, s.sessions[g], |s.streams|);
    }
    assert forall st :: 0 <= st < |s.streams| ==> ReceivedOk(s.streams[st].received, st, s.sessions);
  }

  lemma {:induction false} OpenCacheKeeps(h: EndpointsHash, s: State)
    requires Inv(h, s)
    ensures Inv(h, OpenCache(s))
  {
  }

  lemma {:induction false} BuildServerKeeps(h: EndpointsHash, s: State, id: ServerId, endpoints: ServerEndpoints)
    requires Inv(h, s)
    ensures var (s1, ref) := BuildServer(s, id, endpoints); Inv(h, s1) && ref < |s1.servers|
  {
  }

  lemma {:induction false} MakeStreamKeeps(h: EndpointsHash, s: State, server: ServerRef)
    requires Inv(h, s) && server < |s.servers|
    ensures Inv(h, MakeStream(s, server).0)
  {
    var t := MakeStream(s, server).0;
    SessionsBounded(h, s);
    ListenersFrame(s.store, s.sessions, s.streams, t.store, t.sessions, t.streams);
    FlowFrame(s.store, s.sessions, s.streams, t.store, t.sessions, t.streams);
  }

  lemma {:induction false} LearnKeeps(h: EndpointsHash, s: State, server: Server)
    requires Inv(h, s)
    ensures Inv(h, Learn(s, server))
  {
  }

  lemma {:induction false} CacheStreamKeeps(h: EndpointsHash, s: State, id: ServerId, st: StreamRef)
    requires Inv(h, s) && st < |s.streams|
    requires forall g :: 0 <= g < |s.sessions| ==> StreamOf(s.sessions, s.actions, g) != Some(st)
    ensures Inv(h, CacheStream(s, id, st))
  {
  }

  lemma {:induction false} TouchKeeps(h: EndpointsHash, s: State, key: Key, now: TimePoint)
    requires Inv(h, s) && key in s.store
    ensures Inv(h, Touch(s, key, now))
  {
    var t := Touch(s, key, now);
    SessionsBounded(h, s);
    ListenersFrame(s.store, s.sessions, s.streams, t.store, t.sessions, t.streams);
    FlowFrame(s.store, s.sessions, s.streams, t.store, t.sessions, t.streams);
  }

  lemma {:induction false} OutDataKeeps(h: EndpointsHash, s: State, key: Key, data: DataBuffer, now: TimePoint)
    requires Inv(h, s)
    ensures Inv(h, OutData(s, key, data, now))
  {
    if key in s.store {
      TouchKeeps(h, s, key, now);
    }
  }

  lemma {:induction false} OpenSessionIsolation(s: State, key: Key, server: ServeKind, action: GetAction,
                                                now: TimePoint)
    requires IsolationOk(s.sessions, s.actions, s.cache)
    requires forall g :: g in s.actions ==> g < |s.sessions|
    requires action.Request? ==> action.found == None && server == ById(action.id)
    requires action.Existing? ==>
      forall g :: 0 <= g < |s.sessions| && StreamOf(s.sessions, s.actions, g) == Some(action.stream) ==>
        server.ById? && s.sessions[g].server.ById?
    requires action.Existing? && server.ByEndpoints? ==> forall id :: id in s.cache ==> action.stream != s.cache[id]
    ensures var t := OpenSession(s, key, server, action, now); IsolationOk(t.sessions, t.actions, t.cache)
  {
    var t := OpenSession(s, key, server, action, now);
    var n := |s.sessions|;
    forall g | 0 <= g < n ensures StreamOf(t.sessions, t.actions, g) == StreamOf(s.sessions, s.actions, g) {
    }
    forall g, g' | 0 <= g <= n && 0 <= g' <= n && g != g' && t.sessions[g].server.ByEndpoints?
      ensures Apart(t.sessions, t.actions, g, g')
    {
      if g < n && g' < n {
        assert Apart(s.sessions, s.actions, g, g');
      }
    }
  }

  lemma {:induction false} OpenSessionStore(h: EndpointsHash, s: State, key: Key, server: ServeKind, action: GetAction,
                                            now: TimePoint)
    requires StoreOk(s.store, s.sessions) && SessionsOk(h, s.sessions, |s.streams|)
    requires ActionsOk(s.actions, s.sessions, |s.streams|) && ListenersOk(s.store, s.sessions, s.streams)
    requires key !in s.store && MakeKey(h, key.device, key.client, server) == key
    requires action.Held().Some? ==> action.Held().value < |s.streams|
    requires action.Request? ==> action == Request(action.id, CheckServerExists, true, None) && server == ById(action.id)
    ensures var t := OpenSession(s, key, server, action, now);
      && StoreOk(t.store, t.sessions)
      && SessionsOk(h, t.sessions, |t.streams|)
      && ActionsOk(t.actions, t.sessions, |t.streams|)
      && ListenersOk(t.store, t.sessions, t.streams)
  {
    OpenSessionListeners(s, key, server, action, now);
  }

  lemma {:induction false} OpenSessionListeners(s: State, key: Key, server: ServeKind, action: GetAction,
                                                now: TimePoint)
    requires ListenersOk(s.store, s.sessions, s.streams) && key !in s.store
    ensures var t := OpenSession(s, key, server, action, now); ListenersOk(t.store, t.sessions, t.streams)
  {
    var t := OpenSession(s, key, server, action, now);
    ListenersFrame(s.store, s.sessions, s.streams, t.store, t.sessions, t.streams);
  }

  lemma {:induction false} OpenSessionKeeps(h: EndpointsHash, s: State, key: Key, server: ServeKind,
                                            action: GetAction, now: TimePoint)
    requires Inv(h, s)
    requires key !in s.store && MakeKey(h, key.device, key.client, server) == key
    requires action.Held().Some? ==> action.Held().value < |s.streams|
    requires action.Request? ==> action == Request(action.id, CheckServerExists, true, None) && server == ById(action.id)
    requires action.Existing? ==>
      forall g :: 0 <= g < |s.sessions| && StreamOf(s.sessions, s.actions, g) == Some(action.stream) ==>
        server.ById? && s.sessions[g].server.ById?
    requires action.Existing? && server.ByEndpoints? ==> forall id :: id in s.cache ==> action.stream != s.cache[id]
    ensures Inv(h, OpenSession(s, key, server, action, now))
  {
    SessionsBounded(h, s);
    OpenSessionStore(h, s, key, server, action, now);
    OpenSessionFlow(s, key, server, action, now);
    OpenSessionIsolation(s, key, server, action, now);
  }

  lemma {:induction false} OpenSessionFlow(s: State, key: Key, server: ServeKind, action: GetAction, now: TimePoint)
    requires FlowOk(s.store, s.sessions, s.streams) && key !in s.store
    requires forall g :: 0 <= g < |s.sessions| && s.sessions[g].upstream.Some? ==> s.sessions[g].upstream.value < |s.streams|
    requires forall st :: 0 <= st < |s.streams| ==> s.streams[st].sent <= |s.streams[st].received|
    ensures var t := OpenSession(s, key, server, action, now);
      FlowOk(t.store, t.sessions, t.streams) && t.streams == s.streams
  {
    var t := OpenSession(s, key, server, action, now);
    FlowFrame(s.store, s.sessions, s.streams, t.store, t.sessions, t.streams);
  }

  lemma {:induction false} DropActionKeeps(h: EndpointsHash, s: State, g: SessionId)
    requires Inv(h, s)
    ensures Inv(h, DropAction(s, g))
  {
    IsolationFrame(s.sessions, s.actions, s.sessions, s.actions - {g}, s.cache, g);
  }

  lemma {:induction false} SetActionKeeps(h: EndpointsHash, s: State, g: SessionId, action: GetAction)
    requires Inv(h, s)
    requires g in s.actions && s.actions[g].Request? && action.Request? && action.id == s.actions[g].id
    requires action.found.Some? <==> action.state == Result
    requires action.state != RequestServer ==> action.changed
    requires action.found.Some? ==>
      && action.found.value < |s.streams|
      && (forall g :: 0 <= g < |s.sessions| ==> StreamOf(s.sessions, s.actions, g) != action.found)
    ensures Inv(h, AddAction(s, g, action))
  {
    IsolationFrame(s.sessions, s.actions, s.sessions, s.actions[g := action], s.cache, g);
  }

  lemma {:induction false} WriteKeeps(h: EndpointsHash, s: State, key: Key, item: Item)
    requires Inv(h, s) && Identity(h, item.want) == key.server
    ensures Inv(h, Write(s, key, item))
  {
    var t := Write(s, key, item);
    if key in s.store {
      var g := s.store[key].stream.id;
      assert EntryOk(key, s.store[key], s.sessions) && SessionOk(h, s.sessions[g], |s.streams|);
      WriteStore(h, s, key, item);
      WriteFlow(s, key, item);
      IsolationFrame(s.sessions, s.actions, t.sessions, t.actions, s.cache, g);
    }
  }

  lemma {:induction false} WriteStore(h: EndpointsHash, s: State, key: Key, item: Item)
    requires StoreOk(s.store, s.sessions) && SessionsOk(h, s.sessions, |s.streams|)
    requires ActionsOk(s.actions, s.sessions, |s.streams|) && ListenersOk(s.store, s.sessions, s.streams)
    requires key in s.store && Identity(h, item.want) == key.server
    ensures var t := Write(s, key, item);
      && StoreOk(t.store, t.sessions)
      && ListenersOk(t.store, t.sessions, t.streams)
      && SessionsOk(h, t.sessions, |t.streams|)
      && ActionsOk(t.actions, t.sessions, |t.streams|)
  {
    var t := Write(s, key, item);
    WriteEntries(s, key, item);
    assert EntryOk(key, s.store[key], s.sessions);
    forall g | 0 <= g < |t.sessions| ensures SessionOk(h, t.sessions[g], |t.streams|) {
      assert SessionOk(h, s.sessions[g], |s.streams|);
    }
    forall g | g in t.actions ensures g < |t.sessions| && ActionOk(t.actions[g], t.sessions[g], |t.streams|) {
      assert ActionOk(s.actions[g], s.sessions[g], |s.streams|);
    }
  }

  lemma {:induction false} WriteEntries(s: State, key: Key, item: Item)
    requires StoreOk(s.store, s.sessions) && ListenersOk(s.store, s.sessions, s.streams)
    ensures var t := Write(s, key, item); StoreOk(t.store, t.sessions) && ListenersOk(t.store, t.sessions, t.streams)
  {
    var t := Write(s, key, item);
    if key in s.store {
      assert EntryOk(key, s.store[key], s.sessions);
      ListenersFrame(s.store, s.sessions, s.streams, t.store, t.sessions, t.streams);
      forall k | k in t.store ensures EntryOk(k, t.store[k], t.sessions) {
        assert EntryOk(k, s.store[k], s.sessions);
      }
    }
  }

  lemma {:induction false} WriteFlow(s: State, key: Key, item: Item)
    requires StoreOk(s.store, s.sessions) && FlowOk(s.store, s.sessions, s.streams)
    requires key in s.store
    ensures var t := Write(s, key, item); FlowOk(t.store, t.sessions, t.streams)
  {
    var t := Write(s, key, item);
    var g := s.store[key].stream.id;
    assert EntryOk(key, s.store[key], s.sessions);
    forall k | k in t.store ensures BufferOk(t.store[k].stream, t.sessions, t.streams) {
      assert BufferOk(s.store[k].stream, s.sessions, s.streams);
      assert EntryOk(k, s.store[k], s.sessions);
    }
    forall st | 0 <= st < |s.streams| ensures ReceivedOk(t.streams[st].received, st, t.sessions) {
      assert ReceivedOk(s.streams[st].received, st, s.sessions);
    }
  }

  lemma {:induction false} SendKeeps(h: EndpointsHash, s: State, st: StreamRef)
    requires Inv(h, s)
    ensures Inv(h, Send(s, st))
  {
    var t := Send(s, st);
    if t != s {
      SessionsBounded(h, s);
      assert TablesOk(t.cache, t.streams, t.servers, t.aether, t.cloud);
      ListenersFrame(s.store, s.sessions, s.streams, t.store, t.sessions, t.streams);
      FlowFrame(s.store, s.sessions, s.streams, t.store, t.sessions, t.streams);
    }
  }

  lemma {:induction false} LinkKeeps(h: EndpointsHash, s: State, st: StreamRef, link: LinkState)
    requires Inv(h, s) && st < |s.streams|
    ensures Inv(h, s.(streams := s.streams[st := s.streams[st].(link := link)]))
  {
    var t := s.(streams := s.streams[st := s.streams[st].(link := link)]);
    SessionsBounded(h, s);
    assert forall st :: 0 <= st < |s.streams| ==> ReceivedOk(s.streams[st].received, st, s.sessions);
    ListenersFrame(s.store, s.sessions, s.streams, t.store, t.sessions, t.streams);
    FlowFrame(s.store, s.sessions, s.streams, t.store, t.sessions, t.streams);
  }

  /* Tying */

  lemma {:induction false} TieListeners(h: EndpointsHash, s: State, g: SessionId, st: StreamRef)
    requires StoreOk(s.store, s.sessions) && ListenersOk(s.store, s.sessions, s.streams)
    requires Live(s, g) && st < |s.streams| && s.sessions[g].upstream == None
    ensures var t := Tie(s, g, st); ListenersOk(t.store, t.sessions, t.streams)
  {
    var t := Tie(s, g, st);
    var key := s.sessions[g].key;
    assert EntryOk(key, s.store[key], s.sessions);
    assert g in s.streams[st].listeners ==> ListenerOk(g, st, s.store, s.sessions);
    forall st', g' | 0 <= st' < |t.streams| && g' in t.streams[st'].listeners
      ensures ListenerOk(g', st', t.store, t.sessions)
    {
      if g' in s.streams[st'].listeners {
        assert ListenerOk(g', st', s.store, s.sessions);
      }
    }
    forall k | k in t.store ensures TiedOk(t.store[k].stream, t.streams) {
      assert TiedOk(s.store[k].stream, s.streams);
    }
  }

  lemma {:induction false} TieFlow(h: EndpointsHash, s: State, g: SessionId, st: StreamRef)
    requires StoreOk(s.store, s.sessions) && FlowOk(s.store, s.sessions, s.streams)
    requires Live(s, g) && st < |s.streams| && s.sessions[g].upstream == None
    ensures var t := Tie(s, g, st); FlowOk(t.store, t.sessions, t.streams)
  {
    TieReceived(s, g, st);
    TieWritten(s, g, st);
    TieBuffers(s, g, st);
  }

  lemma {:induction false} TieWritten(s: State, g: SessionId, st: StreamRef)
    requires Live(s, g) && st < |s.streams| && s.sessions[g].upstream == None
    requires Of(s.streams[st].received, g) == []
    requires forall x :: 0 <= x < |s.sessions| ==> Forwarded(s.streams, s.sessions[x].upstream, x) <= s.sessions[x].written
    ensures var t := Tie(s, g, st);
      forall x :: 0 <= x < |t.sessions| ==> Forwarded(t.streams, t.sessions[x].upstream, x) <= t.sessions[x].written
  {
    var t := Tie(s, g, st);
    forall x | 0 <= x < |t.sessions|
      ensures Forwarded(t.streams, t.sessions[x].upstream, x) <= t.sessions[x].written
    {
      assert Forwarded(s.streams, s.sessions[x].upstream, x) <= s.sessions[x].written;
    }
  }

  // No stream has received anything from a session that was not tied.
  lemma {:induction false} TieReceived(s: State, g: SessionId, st: StreamRef)
    requires Live(s, g) && st < |s.streams| && s.sessions[g].upstream == None
    requires forall st' :: 0 <= st' < |s.streams| ==> ReceivedOk(s.streams[st'].received, st', s.sessions)
    ensures var t := Tie(s, g, st);
      && (forall st' :: 0 <= st' < |t.streams| ==>
            ReceivedOk(t.streams[st'].received, st', t.sessions) && t.streams[st'].sent == s.streams[st'].sent
            && t.streams[st'].received == s.streams[st'].received)
      && (forall st' :: 0 <= st' < |s.streams| ==> Of(s.streams[st'].received, g) == [])
  {
    var t := Tie(s, g, st);
    forall st' | 0 <= st' < |s.streams|
      ensures ReceivedOk(t.streams[st'].received, st', t.sessions) && Of(s.streams[st'].received, g) == []
    {
      assert ReceivedOk(s.streams[st'].received, st', s.sessions);
      OfNobody(s.streams[st'].received, g);
    }
  }

  lemma {:induction false} TieBuffers(s: State, g: SessionId, st: StreamRef)
    requires StoreOk(s.store, s.sessions) && Live(s, g) && st < |s.streams| && s.sessions[g].upstream == None
    requires forall k :: k in s.store ==> BufferOk(s.store[k].stream, s.sessions, s.streams)
    requires Of(s.streams[st].received, g) == []
    ensures var t := Tie(s, g, st); forall k :: k in t.store ==> BufferOk(t.store[k].stream, t.sessions, t.streams)
  {
    var t := Tie(s, g, st);
    forall k | k in t.store ensures BufferOk(t.store[k].stream, t.sessions, t.streams) {
      assert BufferOk(s.store[k].stream, s.sessions, s.streams);
      assert EntryOk(k, s.store[k], s.sessions);
    }
  }

  lemma {:induction false} OfNobody(received: seq<Tagged>, g: SessionId)
    requires forall i :: 0 <= i < |received| ==> received[i].session != g
    ensures Of(received, g) == []
  {
    if received != [] {
      OfNobody(received[..|received| - 1], g);
    }
  }

  lemma {:induction false} ReportIsolation(s: State, g: SessionId, st: StreamRef)
    requires g in s.actions && g < |s.sessions| && s.actions[g].Held() == Some(st) && s.sessions[g].upstream == None
    requires IsolationOk(s.sessions, s.actions, s.cache)
    ensures var t := Report(s, g, st); IsolationOk(t.sessions, t.actions, t.cache)
  {
    var t := Report(s, g, st);
    IsolationFrame(s.sessions, s.actions, t.sessions, t.actions, s.cache, g);
  }

  lemma {:induction false} ReportKeeps(h: EndpointsHash, s: State, g: SessionId, st: StreamRef)
    requires Inv(h, s) && g in s.actions && s.actions[g].Held() == Some(st)
    ensures Inv(h, Report(s, g, st))
  {
    assert g < |s.sessions| && ActionOk(s.actions[g], s.sessions[g], |s.streams|);
    if Live(s, g) {
      LiveReportKeeps(h, s, g, st);
    } else {
      DropActionKeeps(h, s, g);
    }
  }

  lemma {:induction false} LiveReportKeeps(h: EndpointsHash, s: State, g: SessionId, st: StreamRef)
    requires Inv(h, s) && Live(s, g) && g in s.actions && s.actions[g].Held() == Some(st)
    requires st < |s.streams| && s.sessions[g].upstream == None
    ensures Inv(h, Report(s, g, st))
  {
    TieStore(h, s, g, st);
    TieListeners(h, s, g, st);
    TieFlow(h, s, g, st);
    ReportIsolation(s, g, st);
    TieTables(s, g, st);
  }

  lemma {:induction false} TieTables(s: State, g: SessionId, st: StreamRef)
    requires TablesOk(s.cache, s.streams, s.servers, s.aether, s.cloud)
    ensures var t := Tie(s, g, st); TablesOk(t.cache, t.streams, t.servers, t.aether, t.cloud)
  {
  }

  lemma {:induction false} TieStore(h: EndpointsHash, s: State, g: SessionId, st: StreamRef)
    requires StoreOk(s.store, s.sessions) && SessionsOk(h, s.sessions, |s.streams|)
    requires ActionsOk(s.actions, s.sessions, |s.streams|)
    requires Live(s, g) && st < |s.streams|
    ensures var t := Tie(s, g, st);
      && StoreOk(t.store, t.sessions)
      && SessionsOk(h, t.sessions, |t.streams|)
      && ActionsOk(t.actions - {g}, t.sessions, |t.streams|)
  {
    var t := Tie(s, g, st);
    forall k | k in t.store ensures EntryOk(k, t.store[k], t.sessions) {
      assert EntryOk(k, s.store[k], s.sessions);
    }
    forall g' | 0 <= g' < |t.sessions| ensures SessionOk(h, t.sessions[g'], |t.streams|) {
      assert SessionOk(h, s.sessions[g'], |s.streams|);
    }
    forall g' | g' in t.actions - {g} ensures g' < |t.sessions| && ActionOk(t.actions[g'], t.sessions[g'], |t.streams|) {
      assert ActionOk(s.actions[g'], s.sessions[g'], |s.streams|);
    }
  }

  /* Passing an item on */

  lemma {:induction false} DrainStore(s: State, key: Key)
    requires StoreOk(s.store, s.sessions)
    ensures var t := Drain(s, key); StoreOk(t.store, t.sessions)
  {
    var t := Drain(s, key);
    forall k | k in t.store ensures EntryOk(k, t.store[k], t.sessions) {
      assert EntryOk(k, s.store[k], s.sessions);
    }
  }

  lemma {:induction false} DrainListeners(s: State, key: Key)
    requires ListenersOk(s.store, s.sessions, s.streams)
    ensures var t := Drain(s, key); ListenersOk(t.store, t.sessions, t.streams)
  {
    var t := Drain(s, key);
    DrainLinks(s, key);
    ListenersFrame(s.store, s.sessions, s.streams, t.store, t.sessions, t.streams);
  }

  lemma {:induction false} DrainLinks(s: State, key: Key)
    ensures var t := Drain(s, key);
      && |t.streams| == |s.streams| && t.sessions == s.sessions && t.store.Keys == s.store.Keys
      && (forall st :: 0 <= st < |s.streams| ==> t.streams[st].listeners == s.streams[st].listeners)
      && (forall k :: k in s.store ==>
            && t.store[k].stream.id == s.store[k].stream.id
            && t.store[k].stream.upstream == s.store[k].stream.upstream)
  {
  }

  lemma {:induction false} DrainKeeps(h: EndpointsHash, s: State, key: Key)
    requires Inv(h, s)
    ensures Inv(h, Drain(s, key))
  {
    var t := Drain(s, key);
    if t != s {
      DrainStore(s, key);
      DrainListeners(s, key);
      SessionsBounded(h, s);
      DrainFlow(s, key);
    }
  }

  lemma {:induction false} OfAppend(received: seq<Tagged>, item: Tagged, g: SessionId)
    ensures Of(received + [item], g) == Of(received, g) + (if item.session == g then [item.item] else [])
  {
    assert (received + [item])[..|received|] == received;
  }

  lemma {:induction false} DrainForwards(s: State, key: Key, g: SessionId)
    requires key in s.store && s.store[key].stream.buffer != [] && g < |s.sessions|
    requires var e := s.store[key].stream;
      e.upstream.Some? && e.upstream.value < |s.streams| && e.id < |s.sessions| && s.sessions[e.id].upstream == e.upstream
    ensures var e := s.store[key].stream; var up := s.sessions[g].upstream;
      Forwarded(Drain(s, key).streams, up, g) ==
      Forwarded(s.streams, up, g) + (if g == e.id then [e.buffer[0]] else [])
  {
    var e := s.store[key].stream;
    DrainedStreams(s, key);
    OfAppend(s.streams[e.upstream.value].received, Tagged(e.id, e.buffer[0]), g);
  }

  lemma {:induction false} DrainedStreams(s: State, key: Key)
    requires key in s.store && s.store[key].stream.buffer != []
    requires s.store[key].stream.upstream.Some? && s.store[key].stream.upstream.value < |s.streams|
    ensures var e := s.store[key].stream; var t := Drain(s, key);
      && |t.streams| == |s.streams|
      && (forall st :: 0 <= st < |s.streams| ==>
            t.streams[st].received ==
            if st == e.upstream.value then s.streams[st].received + [Tagged(e.id, e.buffer[0])]
            else s.streams[st].received)
  {
  }

  lemma {:induction false} PassOn(passed: seq<Item>, buffer: seq<Item>)
    requires buffer != []
    ensures passed + buffer == passed + [buffer[0]] + buffer[1..]
  {
  }

  lemma {:induction false} DrainBuffers(s: State, key: Key)
    requires StoreOk(s.store, s.sessions) && (forall k :: k in s.store ==> BufferOk(s.store[k].stream, s.sessions, s.streams))
    ensures var t := Drain(s, key);
      && (forall k :: k in t.store ==> BufferOk(t.store[k].stream, t.sessions, t.streams))
      && (t != s ==> BufferOk(t.store[key].stream, t.sessions, t.streams))
  {
    var t := Drain(s, key);
    if t != s {
      assert EntryOk(key, s.store[key], s.sessions);
      forall k | k in t.store ensures BufferOk(t.store[k].stream, t.sessions, t.streams) {
        assert BufferOk(s.store[k].stream, s.sessions, s.streams) && EntryOk(k, s.store[k], s.sessions);
        DrainForwards(s, key, s.store[k].stream.id);
        if k == key {
          PassOn(Forwarded(s.streams, s.store[key].stream.upstream, s.store[key].stream.id), s.store[key].stream.buffer);
        }
      }
    }
  }

  lemma {:induction false} DrainFlow(s: State, key: Key)
    requires StoreOk(s.store, s.sessions) && FlowOk(s.store, s.sessions, s.streams)
    requires forall g :: 0 <= g < |s.sessions| && s.sessions[g].upstream.Some? ==> s.sessions[g].upstream.value < |s.streams|
    ensures var t := Drain(s, key); FlowOk(t.store, t.sessions, t.streams)
  {
    var t := Drain(s, key);
    if t != s {
      assert EntryOk(key, s.store[key], s.sessions) && BufferOk(s.store[key].stream, s.sessions, s.streams);
      DrainBuffers(s, key);
      DrainReceived(s, key);
      DrainWritten(s, key);
    }
  }

  lemma {:induction false} DrainReceived(s: State, key: Key)
    requires key in s.store && EntryOk(key, s.store[key], s.sessions)
    requires forall st :: 0 <= st < |s.streams| ==> ReceivedOk(s.streams[st].received, st, s.sessions)
    ensures var t := Drain(s, key);
      forall st :: 0 <= st < |t.streams| ==> ReceivedOk(t.streams[st].received, st, t.sessions)
  {
    var t := Drain(s, key);
    forall st | 0 <= st < |t.streams| ensures ReceivedOk(t.streams[st].received, st, t.sessions) {
      assert ReceivedOk(s.streams[st].received, st, s.sessions);
    }
  }

  lemma {:induction false} DrainWritten(s: State, key: Key)
    requires StoreOk(s.store, s.sessions) && FlowOk(s.store, s.sessions, s.streams) && Drain(s, key) != s
    requires key in s.store && BufferOk(Drain(s, key).store[key].stream, s.sessions, Drain(s, key).streams)
    ensures var t := Drain(s, key);
      forall g :: 0 <= g < |s.sessions| ==> Forwarded(t.streams, s.sessions[g].upstream, g) <= s.sessions[g].written
  {
    var t := Drain(s, key);
    assert EntryOk(key, s.store[key], s.sessions);
    forall g | 0 <= g < |s.sessions| ensures Forwarded(t.streams, s.sessions[g].upstream, g) <= s.sessions[g].written {
      DrainForwards(s, key, g);
    }
  }

  /* Tearing down */

  lemma {:induction false} WithoutIs(ids: seq<SessionId>, g: SessionId)
    requires NoDuplicates(ids)
    ensures NoDuplicates(Without(ids, g))
    ensures forall x :: x in Without(ids, g) <==> x in ids && x != g
  {
    if ids != [] {
      var tail := ids[1..];
      assert forall x :: x in ids <==> x == ids[0] || x in tail;
      assert forall i, j :: 0 <= i < j < |tail| ==> tail[i] == ids[i + 1] && tail[j] == ids[j + 1];
      assert ids[0] !in tail;
      if ids[0] != g {
        WithoutIs(tail, g);
      }
    }
  }

  lemma {:induction false} EraseListeners(s: State, key: Key)
    requires StoreOk(s.store, s.sessions) && ListenersOk(s.store, s.sessions, s.streams)
    requires key in s.store
    ensures var t := Erase(s, key); ListenersOk(t.store, t.sessions, t.streams)
  {
    var t := Erase(s, key);
    var e := s.store[key].stream;
    assert EntryOk(key, s.store[key], s.sessions) && TiedOk(e, s.streams);
    if e.upstream.Some? {
      WithoutIs(s.streams[e.upstream.value].listeners, e.id);
    }
    forall st, g | 0 <= st < |t.streams| && g in t.streams[st].listeners ensures ListenerOk(g, st, t.store, t.sessions) {
      assert ListenerOk(g, st, s.store, s.sessions);
    }
    forall k | k in t.store ensures TiedOk(t.store[k].stream, t.streams) {
      assert TiedOk(s.store[k].stream, s.streams);
      assert EntryOk(k, s.store[k], s.sessions);
    }
  }

  lemma {:induction false} EraseFlow(s: State, key: Key)
    requires FlowOk(s.store, s.sessions, s.streams) && key in s.store
    requires forall g :: 0 <= g < |s.sessions| && s.sessions[g].upstream.Some? ==> s.sessions[g].upstream.value < |s.streams|
    ensures var t := Erase(s, key); FlowOk(t.store, t.sessions, t.streams)
  {
    var t := Erase(s, key);
    FlowFrame(s.store, s.sessions, s.streams, t.store, t.sessions, t.streams);
  }

  lemma {:induction false} EraseKeeps(h: EndpointsHash, s: State, key: Key)
    requires Inv(h, s) && key in s.store
    ensures Inv(h, Erase(s, key))
  {
    SessionsBounded(h, s);
    EraseListeners(s, key);
    EraseFlow(s, key);
    EraseTables(s, key);
    EraseStore(s, key);
  }

  lemma {:induction false} EraseStore(s: State, key: Key)
    requires StoreOk(s.store, s.sessions) && key in s.store
    ensures var t := Erase(s, key);
      && t == s.(store := t.store, streams := t.streams) && |t.streams| == |s.streams|
      && StoreOk(t.store, t.sessions)
  {
  }

  lemma {:induction false} EraseTables(s: State, key: Key)
    requires TablesOk(s.cache, s.streams, s.servers, s.aether, s.cloud) && key in s.store
    ensures var t := Erase(s, key); TablesOk(t.cache, t.streams, t.servers, t.aether, t.cloud)
  {
  }

  /* ---- Steps and runs ---- */

  lemma {:induction false} StreamStateKeeps(h: EndpointsHash, s: State, key: Key)
    requires Inv(h, s)
    ensures Inv(h, StreamState(s, key))
  {
    if key in s.store {
      EraseKeeps(h, s, key);
    }
  }

  lemma {:induction false} NotifyAllKeeps(h: EndpointsHash, s: State, listeners: seq<SessionId>)
    requires Inv(h, s)
    ensures Inv(h, NotifyAll(s, listeners))
    decreases |listeners|
  {
    if listeners != [] {
      var s1 := if listeners[0] < |s.sessions| then StreamState(s, s.sessions[listeners[0]].key) else s;
      if listeners[0] < |s.sessions| {
        StreamStateKeeps(h, s, s.sessions[listeners[0]].key);
      }
      NotifyAllKeeps(h, s1, listeners[1..]);
    }
  }

  lemma {:induction false} DeliverAllKeeps(h: EndpointsHash, s: State, listeners: seq<SessionId>, data: DataBuffer,
                                           now: TimePoint)
    requires Inv(h, s)
    ensures Inv(h, DeliverAll(s, listeners, data, now))
    decreases |listeners|
  {
    if listeners != [] {
      var s1 := if listeners[0] < |s.sessions| then OutData(s, s.sessions[listeners[0]].key, data, now) else s;
      if listeners[0] < |s.sessions| {
        OutDataKeeps(h, s, s.sessions[listeners[0]].key, data, now);
      }
      DeliverAllKeeps(h, s1, listeners[1..], data, now);
    }
  }

  // A stream that was just made belongs to no session and is not cached.
  lemma {:induction false} FreshStream(h: EndpointsHash, s: State)
    requires Inv(h, s)
    ensures forall g :: 0 <= g < |s.sessions| ==> StreamOf(s.sessions, s.actions, g) != Some(|s.streams|)
    ensures forall id :: id in s.cache ==> s.cache[id] < |s.streams|
  {
    forall g | 0 <= g < |s.sessions| ensures StreamOf(s.sessions, s.actions, g) != Some(|s.streams|) {
      assert SessionOk(h, s.sessions[g], |s.streams|);
      assert g in s.actions ==> ActionOk(s.actions[g], s.sessions[g], |s.streams|);
    }
  }

  lemma {:induction false} ResolveKeeps(h: EndpointsHash, s: State, g: SessionId, id: ServerId, server: ServerRef)
    requires Inv(h, s) && server < |s.servers|
    requires g in s.actions && s.actions[g].Request? && s.actions[g].id == id
    ensures Inv(h, Resolve(s, g, id, server))
  {
    var (s1, st) := MakeStream(s, server);
    FreshStream(h, s);
    MakeStreamKeeps(h, s, server);
    CacheStreamKeeps(h, s1, id, st);
    SetActionKeeps(h, CacheStream(s1, id, st), g, Request(id, Result, true, Some(st)));
  }

  lemma {:induction false} UpdateActionKeeps(h: EndpointsHash, s: State, g: SessionId)
    requires Inv(h, s)
    ensures Inv(h, UpdateAction(s, g))
  {
    if g in s.actions {
      assert ActionOk(s.actions[g], s.sessions[g], |s.streams|);
      match s.actions[g]
      case Existing(st) => ReportKeeps(h, s, g, st);
      case Request(id, state, changed, found) =>
        if changed {
          match state
          case CheckServerExists =>
            if id in s.aether {
              ResolveKeeps(h, s, g, id, s.aether[id]);
            } else {
              SetActionKeeps(h, s, g, Request(id, RequestServer, true, None));
            }
          case RequestServer => SetActionKeeps(h, s, g, Request(id, RequestServer, false, found));
          case Result => ReportKeeps(h, s, g, found.value);
          case Error => DropActionKeeps(h, s, g);
        }
    }
  }

  lemma {:induction false} AnswerKeeps(h: EndpointsHash, s: State, g: SessionId, servers: seq<ServerDescriptor>)
    requires Inv(h, s)
    ensures Inv(h, Answer(s, g, servers))
  {
    if g in s.actions && s.actions[g].Waiting() && servers != [] {
      var endpoints := Endpoints(servers[0].ips);
      var (s1, server) := BuildServer(s, servers[0].serverId, endpoints);
      BuildServerKeeps(h, s, servers[0].serverId, endpoints);
      ResolveKeeps(h, s1, g, s.actions[g].id, server);
    }
  }

  lemma {:induction false} RefuseKeeps(h: EndpointsHash, s: State, g: SessionId)
    requires Inv(h, s)
    ensures Inv(h, Refuse(s, g))
  {
    if g in s.actions && s.actions[g].Waiting() {
      SetActionKeeps(h, s, g, Request(s.actions[g].id, Error, true, None));
    }
  }

  // What a hit in the weak cache means: the stream is alive, and never a private one.
  lemma {:induction false} CacheHit(h: EndpointsHash, s: State, id: ServerId)
    requires Inv(h, s)
    ensures var (s1, action) := GetStreamById(s, id);
      action.Existing? ==>
        && id in s.cache && s.cache[id] == action.stream && action.stream < |s.streams| && Alive(s, action.stream)
        && (forall g :: 0 <= g < |s.sessions| && StreamOf(s.sessions, s.actions, g) == Some(action.stream) ==>
              s.sessions[g].server.ById?)
  {
  }

  lemma {:induction false} OpenStreamKeeps(h: EndpointsHash, s: State, key: Key, server: ServeKind, now: TimePoint)
    requires Inv(h, s) && MakeKey(h, key.device, key.client, server) == key
    ensures Inv(h, OpenStream(s, key, server, now))
  {
    if key in s.store {
      TouchKeeps(h, s, key, now);
    } else {
      var (s1, action) := GetStream(s, server);
      match server {
        case ById(id) =>
          OpenCacheKeeps(h, s);
          CacheHit(h, s, id);
        case ByEndpoints(eps) =>
          var (s2, ref) := BuildServer(s, 0, eps);
          BuildServerKeeps(h, s, 0, eps);
          FreshStream(h, s2);
          MakeStreamKeeps(h, s2, ref);
      }
      OpenSessionKeeps(h, s1, key, server, action, now);
    }
  }

  lemma {:induction false} InputKeeps(h: EndpointsHash, s: State, device: DeviceId, call: GatewayCall, now: TimePoint)
    requires Inv(h, s)
    ensures Inv(h, Input(h, s, device, call, now))
  {
    var want := call.Wanted();
    var key := MakeKey(h, device, call.client, want);
    OpenStreamKeeps(h, s, key, want, now);
    WriteKeeps(h, OpenStream(s, key, want, now), key, Item(want, call.data));
  }

  lemma {:induction false} StepKeeps(h: EndpointsHash, s: State, e: Event)
    requires Inv(h, s)
    ensures Inv(h, Step(h, s, e))
  {
    match e
    case Packet(device, call, now) => InputKeeps(h, s, device, call, now);
    case Updated(g) => UpdateActionKeeps(h, s, g);
    case Answered(g, servers) => AnswerKeeps(h, s, g, servers);
    case Refused(g) => RefuseKeeps(h, s, g);
    case Drained(key) => DrainKeeps(h, s, key);
    case Sent(st) => SendKeeps(h, s, st);
    case Replied(st, data, now) => ReplyKeeps(h, s, st, data, now);
    case LinkChanged(st, link) => SetLinkKeeps(h, s, st, link);
    case StreamUpdated(key) => StreamStateKeeps(h, s, key);
    case ServerLearned(server) => LearnKeeps(h, s, server);
  }

  lemma {:induction false} ReplyKeeps(h: EndpointsHash, s: State, st: StreamRef, data: DataBuffer, now: TimePoint)
    requires Inv(h, s)
    ensures Inv(h, Reply(s, st, data, now))
  {
    if st < |s.streams| {
      DeliverAllKeeps(h, s, s.streams[st].listeners, data, now);
    }
  }

  lemma {:induction false} SetLinkKeeps(h: EndpointsHash, s: State, st: StreamRef, link: LinkState)
    requires Inv(h, s)
    ensures Inv(h, SetLink(s, st, link))
  {
    if st < |s.streams| {
      LinkKeeps(h, s, st, link);
      NotifyAllKeeps(h, s.(streams := s.streams[st := s.streams[st].(link := link)]), s.streams[st].listeners);
    }
  }

  lemma {:induction false} RunKeeps(h: EndpointsHash, s: State, events: seq<Event>)
    requires Inv(h, s)
    ensures Inv(h, Run(h, s, events))
    decreases |events|
  {
    if events != [] {
      StepKeeps(h, s, events[0]);
      RunKeeps(h, Step(h, s, events[0]), events[1..]);
    }
  }

  /** Every state the gateway can reach satisfies the invariant. */
  lemma {:induction false} Reachable(h: EndpointsHash, events: seq<Event>)
    ensures Inv(h, Run(h, EMPTY, events))
  {
    RunKeeps(h, EMPTY, events);
  }
}
