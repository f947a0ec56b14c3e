/** What every step of the gateway keeps. */
module GatewayInvariant {
  import opened Wire
  import opened Flatten
  import opened GatewayModel

  type Store = map<Key, StreamStore>
  type Actions = map<SessionId, GetAction>

  // The items of one session among those a server stream received.
  function Of(received: seq<Tagged>, g: SessionId): seq<Item> {
    if received == [] then []
    else
      var last := received[|received| - 1];
      Of(received[..|received| - 1], g) + (if last.session == g then [last.item] else [])
  }

  // What a session has passed on to its server stream.
  function Forwarded(streams: seq<ServerStream>, up: Option<StreamRef>, g: SessionId): seq<Item> {
    if up.Some? && up.value < |streams| then Of(streams[up.value].received, g) else []
  }

  // The stream a session uses, or will use when its get-action reports.
  function StreamOf(sessions: seq<Session>, actions: Actions, g: SessionId): Option<StreamRef>
    requires g < |sessions|
  {
    if g in actions then actions[g].Held() else sessions[g].upstream
  }

  ghost predicate NoDuplicates(ids: seq<SessionId>) {
    forall i, j :: 0 <= i < j < |ids| ==> ids[i] != ids[j]
  }

  // A stored entry and its session agree.
  ghost predicate EntryOk(k: Key, e: StreamStore, sessions: seq<Session>) {
    && e.stream.id < |sessions|
    && sessions[e.stream.id].key == k
    && sessions[e.stream.id].server == e.server
    && sessions[e.stream.id].upstream == e.stream.upstream
  }

  ghost predicate StoreOk(store: Store, sessions: seq<Session>) {
    forall k :: k in store ==> EntryOk(k, store[k], sessions)
  }

  ghost predicate SessionOk(h: EndpointsHash, x: Session, n: nat) {
    && MakeKey(h, x.key.device, x.key.client, x.server) == x.key
    && (x.upstream.Some? ==> x.upstream.value < n)
    && (forall i :: 0 <= i < |x.written| ==> Identity(h, x.written[i].want) == x.key.server)
  }

  ghost predicate SessionsOk(h: EndpointsHash, sessions: seq<Session>, n: nat) {
    forall g :: 0 <= g < |sessions| ==> SessionOk(h, sessions[g], n)
  }

  ghost predicate ActionOk(a: GetAction, x: Session, n: nat) {
    && x.upstream == None
    && (a.Held().Some? ==> a.Held().value < n)
    && (a.Request? ==>
          && x.server == ById(a.id)
          && (a.found.Some? <==> a.state == Result)
          && (a.state != RequestServer ==> a.changed))
  }

  // Pending actions belong to sessions that are not tied yet.
  ghost predicate ActionsOk(actions: Actions, sessions: seq<Session>, n: nat) {
    forall g :: g in actions ==> g < |sessions| && ActionOk(actions[g], sessions[g], n)
  }

  ghost predicate ListenerOk(g: SessionId, st: StreamRef, store: Store, sessions: seq<Session>) {
    && g < |sessions|
    && sessions[g].key in store
    && store[sessions[g].key].stream.id == g
    && store[sessions[g].key].stream.upstream == Some(st)
  }

  ghost predicate TiedOk(e: GwStream, streams: seq<ServerStream>) {
    e.upstream.Some? ==> e.upstream.value < |streams| && e.id in streams[e.upstream.value].listeners
  }

  // The listeners of a stream are the stored sessions tied to it, once each.
  ghost predicate ListenersOk(store: Store, sessions: seq<Session>, streams: seq<ServerStream>) {
    && (forall st :: 0 <= st < |streams| ==> NoDuplicates(streams[st].listeners))
    && (forall st, g :: 0 <= st < |streams| && g in streams[st].listeners ==> ListenerOk(g, st, store, sessions))
    && (forall k :: k in store ==> TiedOk(store[k].stream, streams))
  }

  ghost predicate ReceivedOk(received: seq<Tagged>, st: StreamRef, sessions: seq<Session>) {
    forall i :: 0 <= i < |received| ==>
      received[i].session < |sessions| && sessions[received[i].session].upstream == Some(st)
  }

  ghost predicate BufferOk(e: GwStream, sessions: seq<Session>, streams: seq<ServerStream>) {
    && e.id < |sessions|
    && sessions[e.id].written == Forwarded(streams, sessions[e.id].upstream, e.id) + e.buffer
  }

  // Nothing is lost, invented or reordered between a client and its server stream.
  ghost predicate FlowOk(store: Store, sessions: seq<Session>, streams: seq<ServerStream>) {
    && (forall st :: 0 <= st < |streams| ==>
          ReceivedOk(streams[st].received, st, sessions) && streams[st].sent <= |streams[st].received|)
    && (forall g :: 0 <= g < |sessions| ==>
          Forwarded(streams, sessions[g].upstream, g) <= sessions[g].written)
    && (forall k :: k in store ==> BufferOk(store[k].stream, sessions, streams))
  }

  ghost predicate TablesOk(cache: map<ServerId, StreamRef>, streams: seq<ServerStream>, servers: seq<Server>,
                           aether: map<ServerId, ServerRef>, cloud: seq<ServerRef>) {
    && (forall id :: id in cache ==> cache[id] < |streams|)
    && (forall st :: 0 <= st < |streams| ==> streams[st].server < |servers|)
    && (forall id :: id in aether ==> aether[id] < |servers| && servers[aether[id]].id == id)
    && (forall i :: 0 <= i < |cloud| ==> cloud[i] < |servers|)
  }

  ghost predicate Apart(sessions: seq<Session>, actions: Actions, g: SessionId, g': SessionId)
    requires g < |sessions| && g' < |sessions|
  {
    StreamOf(sessions, actions, g).Some? ==> StreamOf(sessions, actions, g) != StreamOf(sessions, actions, g')
  }

  // A session opened by endpoints shares its stream with nobody, not even the cache.
  ghost predicate IsolationOk(sessions: seq<Session>, actions: Actions, cache: map<ServerId, StreamRef>) {
    && (forall g, g' :: 0 <= g < |sessions| && 0 <= g' < |sessions| && g != g' && sessions[g].server.ByEndpoints? ==>
          Apart(sessions, actions, g, g'))
    && (forall g, id :: 0 <= g < |sessions| && sessions[g].server.ByEndpoints? && id in cache ==>
          StreamOf(sessions, actions, g) != Some(cache[id]))
  }

  ghost predicate Inv(h: EndpointsHash, s: State) {
    && StoreOk(s.store, s.sessions)
    && SessionsOk(h, s.sessions, |s.streams|)
    && ActionsOk(s.actions, s.sessions, |s.streams|)
    && ListenersOk(s.store, s.sessions, s.streams)
    && FlowOk(s.store, s.sessions, s.streams)
    && TablesOk(s.cache, s.streams, s.servers, s.aether, s.cloud)
    && IsolationOk(s.sessions, s.actions, s.cache)
  }

  /* ---- Frames ---- */

  // Old sessions keep their streams and listeners; new ones have none.
  lemma {:induction false} ListenersFrame(store: Store, sessions: seq<Session>, streams: seq<ServerStream>,
                                          store': Store, sessions': seq<Session>, streams': seq<ServerStream>)
    requires ListenersOk(store, sessions, streams)
    requires |sessions| <= |sessions'| && |streams| <= |streams'|
    requires forall g :: 0 <= g < |sessions| ==> sessions'[g].key == sessions[g].key
    requires forall st :: 0 <= st < |streams'| ==>
      streams'[st].listeners == if st < |streams| then streams[st].listeners else []
    requires forall k :: k in store ==>
      k in store' && store'[k].stream.id == store[k].stream.id && store'[k].stream.upstream == store[k].stream.upstream
    requires forall k :: k in store' && k !in store ==> store'[k].stream.upstream == None
    ensures ListenersOk(store', sessions', streams')
  {
    forall st, g | 0 <= st < |streams'| && g in streams'[st].listeners ensures ListenerOk(g, st, store', sessions') {
      assert ListenerOk(g, st, store, sessions);
    }
    forall k | k in store' ensures TiedOk(store'[k].stream, streams') {
      if k in store {
        assert TiedOk(store[k].stream, streams);
      }
    }
  }

  // Nothing was written or passed on; new sessions have written nothing.
  lemma {:induction false} FlowFrame(store: Store, sessions: seq<Session>, streams: seq<ServerStream>,
                                     store': Store, sessions': seq<Session>, streams': seq<ServerStream>)
    requires FlowOk(store, sessions, streams)
    requires |sessions| <= |sessions'| && |streams| <= |streams'|
    requires forall g :: 0 <= g < |sessions'| ==>
      if g < |sessions| then sessions'[g] == sessions[g] else sessions'[g].written == [] && sessions'[g].upstream == None
    requires forall g :: 0 <= g < |sessions| && sessions[g].upstream.Some? ==> sessions[g].upstream.value < |streams|
    requires forall st :: 0 <= st < |streams'| ==>
      && streams'[st].received == (if st < |streams| then streams[st].received else [])
      && streams'[st].sent <= |streams'[st].received|
    requires forall k :: k in store' ==>
      if k in store then store'[k].stream == store[k].stream
      else |sessions| <= store'[k].stream.id < |sessions'| && store'[k].stream.buffer == []
    ensures FlowOk(store', sessions', streams')
  {
    forall g | 0 <= g < |sessions'|
      ensures Forwarded(streams', sessions'[g].upstream, g) ==
              if g < |sessions| then Forwarded(streams, sessions[g].upstream, g) else []
    {
    }
    forall k | k in store' ensures BufferOk(store'[k].stream, sessions', streams') {
      if k in store {
        assert BufferOk(store[k].stream, sessions, streams);
      }
    }
    forall st | 0 <= st < |streams'| ensures ReceivedOk(streams'[st].received, st, sessions') {
      if st < |streams| {
        assert ReceivedOk(streams[st].received, st, sessions);
      }
    }
  }

  // Sessions keep their streams, or lose them, or one of them gets a stream nobody has.
  lemma {:induction false} IsolationFrame(sessions: seq<Session>, actions: Actions,
                                          sessions': seq<Session>, actions': Actions,
                                          cache: map<ServerId, StreamRef>, g0: SessionId)
    requires IsolationOk(sessions, actions, cache)
    requires |sessions'| == |sessions|
    requires forall g :: 0 <= g < |sessions| ==>
      && sessions'[g].server == sessions[g].server
      && (StreamOf(sessions', actions', g) in {None, StreamOf(sessions, actions, g)} || g == g0)
    requires g0 < |sessions| && StreamOf(sessions', actions', g0) !in {None, StreamOf(sessions, actions, g0)} ==>
      && (forall g :: 0 <= g < |sessions| ==> StreamOf(sessions, actions, g) != StreamOf(sessions', actions', g0))
      && sessions[g0].server.ById?
    ensures IsolationOk(sessions', actions', cache)
  {
    forall g, g' | 0 <= g < |sessions| && 0 <= g' < |sessions| && g != g' && sessions[g].server.ByEndpoints?
      ensures Apart(sessions', actions', g, g')
    {
      assert Apart(sessions, actions, g, g');
    }
  }
}
