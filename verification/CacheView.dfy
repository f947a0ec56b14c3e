/** The weak cache with lazy purging, compared with a plain map of live streams. */
module CacheView {
  import opened Wire
  import opened GatewayModel
  import opened GatewayInvariant
  import opened GatewaySteps
  import opened FanOut
  import opened Entries
  import opened Liveness
  import opened Sharing

  /**
   Purging leaves exactly the entries whose streams are alive afterwards, does not
   change what the cache says about live streams, and a second purge does nothing.
   */
  lemma {:induction false} PurgeKeepsView(s: State)
    ensures var t := OpenCache(s);
      && (forall id :: id in t.cache <==> id in s.cache && Alive(t, s.cache[id]))
      && (forall id :: id in t.cache ==> t.cache[id] == s.cache[id])
      && LiveView(t) == LiveView(s)
      && OpenCache(t) == t
  {
    var t := OpenCache(s);
    forall st ensures Alive(t, st) == Alive(s, st) {
      assert HeldBySession(t, st) == HeldBySession(s, st);
      assert HeldByAction(t, st) == HeldByAction(s, st);
    }
    assert LiveView(t) == LiveView(s);
  }

  // A client's first packet for a server id, and the first update of the get-action it starts.
  function FirstPacket(s: State, device: DeviceId, client: ClientId, id: ServerId, data: DataBuffer,
                       now: TimePoint): seq<Event>
  {
    [Packet(device, ToServerId(client, id, data), now), Updated(|s.sessions|)]
  }

  /**
   In every reachable state a lookup behaves like one in the plain map of live
   streams: a session opened for an id joins the stream the map has for it, and no
   stream is made; if the map has none, the session is not tied, and a request for
   the id is under way.
   */
  lemma {:induction false} LookupIsPlain(h: EndpointsHash, events: seq<Event>, device: DeviceId, client: ClientId,
                                         id: ServerId, data: DataBuffer, now: TimePoint)
    requires MakeKey(h, device, client, ById(id)) !in Run(h, EMPTY, events).store
    ensures var s := Run(h, EMPTY, events);
      var t := Run(h, EMPTY, events + FirstPacket(s, device, client, id, data, now));
      var key := MakeKey(h, device, client, ById(id));
      && key in t.store && t.store[key].stream.id == |s.sessions|
      && (if id in LiveView(s) then
            TiedTo(t, key, LiveView(s)[id]) && |t.streams| == |s.streams| && |s.sessions| !in t.actions
            && LiveView(s)[id] < |t.streams| && |s.sessions| in t.streams[LiveView(s)[id]].listeners
          else
            t.store[key].stream.upstream == None
            && |s.sessions| in t.actions && t.actions[|s.sessions|].Request? && t.actions[|s.sessions|].id == id)
  {
    var s := Run(h, EMPTY, events);
    Reachable(h, events);
    CacheBounded(h, s);
    var two := FirstPacket(s, device, client, id, data, now);
    RunBoth(h, EMPTY, events, two);
    RunTwo(h, s, two[0], two[1]);
    LookupIn(h, s, device, client, id, data, now);
  }

  lemma {:induction false} LookupIn(h: EndpointsHash, s: State, device: DeviceId, client: ClientId, id: ServerId,
                                    data: DataBuffer, now: TimePoint)
    requires MakeKey(h, device, client, ById(id)) !in s.store
    requires forall x :: x in s.cache ==> s.cache[x] < |s.streams|
    ensures var t := UpdateAction(Step(h, s, Packet(device, ToServerId(client, id, data), now)), |s.sessions|);
      var key := MakeKey(h, device, client, ById(id));
      && key in t.store && t.store[key].stream.id == |s.sessions|
      && (if id in LiveView(s) then
            TiedTo(t, key, LiveView(s)[id]) && |t.streams| == |s.streams| && |s.sessions| !in t.actions
            && LiveView(s)[id] < |t.streams| && |s.sessions| in t.streams[LiveView(s)[id]].listeners
          else
            t.store[key].stream.upstream == None
            && |s.sessions| in t.actions && t.actions[|s.sessions|].Request? && t.actions[|s.sessions|].id == id)
  {
    var key := MakeKey(h, device, client, ById(id));
    var s1 := Step(h, s, Packet(device, ToServerId(client, id, data), now));
    var g := |s.sessions|;
    assert s1.actions[g] == if id in LiveView(s) then Existing(LiveView(s)[id]) else Request(id, CheckServerExists, true, None);
    assert key in s1.store && s1.store[key].stream.id == g && s1.store[key].stream.upstream == None;
    assert s1.streams == s.streams && Live(s1, g);
    if id in LiveView(s) {
      JoinsStream(s1, g, LiveView(s)[id]);
    } else if id in s1.aether {
      ResolveFrame(s1, g, id, s1.aether[id]);
    }
  }

  lemma {:induction false} JoinsStream(s: State, g: SessionId, st: StreamRef)
    requires Live(s, g) && g in s.actions && s.actions[g] == Existing(st) && st < |s.streams|
    ensures var t := UpdateAction(s, g); var key := s.sessions[g].key;
      && TiedTo(t, key, st) && t.store[key].stream.id == g && |t.streams| == |s.streams|
      && g !in t.actions && g in t.streams[st].listeners
  {
  }

  function InsertIfAbsent(view: map<ServerId, StreamRef>, id: ServerId, st: StreamRef): map<ServerId, StreamRef> {
    if id in view then view else view[id := st]
  }

  lemma {:induction false} ResolveLiveness(s: State, g: SessionId, id: ServerId, server: ServerRef, st: StreamRef)
    requires g in s.actions ==> s.actions[g].Held() == None
    ensures var t := Resolve(s, g, id, server); Alive(t, st) <==> Alive(s, st) || st == |s.streams|
  {
    var t := Resolve(s, g, id, server);
    assert t.store == s.store;
    assert t.actions == s.actions[g := Request(id, Result, true, Some(|s.streams|))];
    assert HeldBySession(t, st) == HeldBySession(s, st);
    if HeldByAction(s, st) {
      var x :| x in s.actions && s.actions[x].Held() == Some(st);
      assert x in t.actions && t.actions[x].Held() == Some(st);
    }
    assert g in t.actions && t.actions[g].Held() == Some(|s.streams|);
    if HeldByAction(t, st) && st != |s.streams| {
      var x :| x in t.actions && t.actions[x].Held() == Some(st);
      assert x in s.actions && s.actions[x].Held() == Some(st);
    }
  }

  /**
   Storing a resolved stream acts on the live view like a plain insert-if-absent,
   except when an expired entry for the id is still there: then nothing is stored.
   */
  lemma {:induction false} StoreIsPlainUnlessExpired(h: EndpointsHash, s: State, g: SessionId, id: ServerId,
                                                server: ServerRef)
    requires Inv(h, s)
    requires g in s.actions ==> s.actions[g].Held() == None
    ensures var t := Resolve(s, g, id, server);
      && (LiveView(t) == InsertIfAbsent(LiveView(s), id, |s.streams|)
          <==> !(id in s.cache && !Alive(s, s.cache[id])))
      && (forall x :: x in LiveView(s) ==> x in LiveView(t) && LiveView(t)[x] == LiveView(s)[x])
  {
    ViewAfterStore(s, g, id, server);
  }

  lemma {:induction false} ViewAfterStore(s: State, g: SessionId, id: ServerId, server: ServerRef)
    requires forall x :: x in s.cache ==> s.cache[x] < |s.streams|
    requires g in s.actions ==> s.actions[g].Held() == None
    ensures var t := Resolve(s, g, id, server); var plain := InsertIfAbsent(LiveView(s), id, |s.streams|);
      && (LiveView(t) == plain <==> !(id in s.cache && !Alive(s, s.cache[id])))
      && (forall x :: x in LiveView(s) ==> x in LiveView(t) && LiveView(t)[x] == LiveView(s)[x])
  {
    var t := Resolve(s, g, id, server);
    assert t.cache == if id in s.cache then s.cache else s.cache[id := |s.streams|];
    forall st ensures Alive(t, st) <==> Alive(s, st) || st == |s.streams| {
      ResolveLiveness(s, g, id, server, st);
    }
    var was, now := LiveView(s), LiveView(t);
    assert forall x :: x in was <==> x in s.cache && Alive(s, s.cache[x]);
    assert forall x :: x in now <==> x in t.cache && Alive(t, t.cache[x]);
    if id in s.cache && !Alive(s, s.cache[id]) {
      assert id !in now;
    } else {
      assert now == InsertIfAbsent(was, id, |s.streams|);
    }
  }

  /* ---- The view over any event ---- */

  // The event brings a request for the id to its result.
  ghost predicate Completed(s: State, t: State, id: ServerId) {
    exists g :: g in s.actions && s.actions[g].Request? && s.actions[g].id == id && Completes(s, t, g)
  }

  lemma {:induction false} UpdateCompletes(s: State, g: SessionId)
    ensures var t := UpdateAction(s, g);
      t.cache == s.cache || (g in s.actions && s.actions[g].Unresolved() && s.actions[g].id !in s.cache && Completes(s, t, g)
                             && t.cache == s.cache[s.actions[g].id := |s.streams|])
  {
    UpdateFrame(s, g);
  }

  lemma {:induction false} AnswerCompletes(s: State, g: SessionId, servers: seq<ServerDescriptor>)
    ensures var t := Answer(s, g, servers);
      t.cache == s.cache || (g in s.actions && s.actions[g].Unresolved() && s.actions[g].id !in s.cache && Completes(s, t, g)
                             && t.cache == s.cache[s.actions[g].id := |s.streams|])
  {
    AnswerFrame(s, g, servers);
  }

  // An entry was there before, or stores the stream of the request that completes.
  lemma {:induction false} WhereFrom(h: EndpointsHash, s: State, e: Event, id: ServerId)
    requires Inv(h, s) && id in Step(h, s, e).cache
    ensures var t := Step(h, s, e);
      || (id in s.cache && t.cache[id] == s.cache[id])
      || (id !in s.cache && Completed(s, t, id) && t.cache[id] == |s.streams|)
  {
    if e.Replied? || e.LinkChanged? {
      StreamEventFrame(h, s, e);
    } else {
      WhereFromOwn(h, s, e, id);
    }
  }

  lemma {:induction false} WhereFromOwn(h: EndpointsHash, s: State, e: Event, id: ServerId)
    requires !e.Replied? && !e.LinkChanged? && id in Step(h, s, e).cache
    ensures var t := Step(h, s, e);
      || (id in s.cache && t.cache[id] == s.cache[id])
      || (id !in s.cache && Completed(s, t, id) && t.cache[id] == |s.streams|)
  {
    match e
    case Packet(_, _, _) => PacketFrame(h, s, e);
    case Updated(g) => UpdateCompletes(s, g);
    case Answered(g, servers) => AnswerCompletes(s, g, servers);
    case Drained(key) => DrainFrame(s, key);
    case StreamUpdated(key) => EraseFrame(s, key);
    case _ =>
  }

  // Nothing comes back to life.
  lemma {:induction false} NoResurrection(h: EndpointsHash, s: State, e: Event, st: StreamRef)
    requires Inv(h, s) && st < |s.streams| && Alive(Step(h, s, e), st)
    ensures Alive(s, st)
  {
    StepOwners(h, s, e);
  }

  lemma {:induction false} CacheBounded(h: EndpointsHash, s: State)
    requires Inv(h, s)
    ensures forall id :: id in s.cache ==> s.cache[id] < |s.streams|
  {
  }

  lemma {:induction false} ViewStepIn(h: EndpointsHash, s: State, e: Event, id: ServerId)
    requires Inv(h, s)
    ensures var t := Step(h, s, e); var was, now := LiveView(s), LiveView(t);
      && (id in now <==>
            || (id in was && Alive(t, was[id]))
            || (id !in s.cache && Completed(s, t, id)))
      && (id in now ==> now[id] == if id in was then was[id] else |s.streams|)
  {
    var t := Step(h, s, e);
    if id in t.cache {
      WhereFrom(h, s, e, id);
    }
    CacheBounded(h, s);
    if id in s.cache && Alive(t, s.cache[id]) {
      NoResurrection(h, s, e, s.cache[id]);
    }
    if id in LiveView(s) {
      StepKeepsCached(h, s, e, id, s.cache[id]);
    }
    if id !in s.cache && Completed(s, t, id) {
      var g :| g in s.actions && s.actions[g].Request? && s.actions[g].id == id && Completes(s, t, g);
      CompletionCachedIn(h, s, e, g);
    }
  }

  /**
   Over any run the weak cache with lazy purging behaves like a plain map of live
   streams: with each event the map loses the entries whose stream has died, gains
   the stream of a request that completes for an id without an entry, and changes
   nothing else. Only an expired entry that was not purged yet keeps one out.
   */
  lemma {:induction false} RefinesPlainMap(h: EndpointsHash, events: seq<Event>, e: Event, id: ServerId)
    ensures var s := Run(h, EMPTY, events);
      var t := Run(h, EMPTY, events + [e]);
      var was, now := LiveView(s), LiveView(t);
      && (id in now <==>
            || (id in was && Alive(t, was[id]))
            || (id !in s.cache && Completed(s, t, id)))
      && (id in now ==> now[id] == if id in was then was[id] else |s.streams|)
  {
    Reachable(h, events);
    RunBoth(h, EMPTY, events, [e]);
    RunOne(h, Run(h, EMPTY, events), e);
    ViewStepIn(h, Run(h, EMPTY, events), e, id);
  }

  /* ---- An expired entry in the way ---- */

  // Two devices ask for server 7; the stream of the first request is gone before the second request completes.
  const EXPIRING := [AskSeven(1), AskSeven(2), ServerLearned(Server(7, [])), Updated(0), Updated(0),
                     LinkChanged(0, LinkError)]

  lemma {:induction false} ExpiringRun(h: EndpointsHash)
    ensures var s := Run(h, EMPTY, EXPIRING);
      && s.cache == map[7 := 0] && |s.streams| == 1 && s.store.Keys == {Key(2, 0, 7)}
      && s.store[Key(2, 0, 7)].stream.upstream == None
      && s.actions == map[1 := Request(7, CheckServerExists, true, None)] && 7 in s.aether
  {
    BothAsk(h);
    var s2 := Step(h, Step(h, EMPTY, EXPIRING[0]), EXPIRING[1]);
    ThenExpires(h, s2);
    RunTwo(h, EMPTY, EXPIRING[0], EXPIRING[1]);
    RunFour(h, s2, EXPIRING[2..]);
    RunBoth(h, EMPTY, [EXPIRING[0], EXPIRING[1]], EXPIRING[2..]);
    assert [EXPIRING[0], EXPIRING[1]] + EXPIRING[2..] == EXPIRING;
  }

  lemma {:induction false} ThenExpires(h: EndpointsHash, s2: State)
    requires BothAsked(s2)
    ensures var s := Step(h, Step(h, Step(h, Step(h, s2, EXPIRING[2]), EXPIRING[3]), EXPIRING[4]), EXPIRING[5]);
      && s.cache == map[7 := 0] && |s.streams| == 1 && s.store.Keys == {Key(2, 0, 7)}
      && s.store[Key(2, 0, 7)].stream.upstream == None
      && s.actions == map[1 := Request(7, CheckServerExists, true, None)] && 7 in s.aether
  {
    var s4 := Step(h, Step(h, s2, EXPIRING[2]), EXPIRING[3]);
    assert s4.actions == map[0 := Request(7, Result, true, Some(0)), 1 := Request(7, CheckServerExists, true, None)];
    assert Live(s4, 0);
    var s5 := Step(h, s4, EXPIRING[4]);
    assert s5.streams[0].listeners == [0] && s5.actions == map[1 := Request(7, CheckServerExists, true, None)];
    OneListenerErased(h, s5);
  }

  lemma {:induction false} OneListenerErased(h: EndpointsHash, s: State)
    requires |s.streams| == 1 && s.streams[0].listeners == [0] && Live(s, 0)
    requires s.store[s.sessions[0].key].stream.upstream == Some(0)
    ensures var t := Step(h, s, LinkChanged(0, LinkError));
      t == s.(store := s.store - {s.sessions[0].key}, streams := t.streams) && |t.streams| == 1
  {
    assert [0][1..] == [];
  }

  /**
   This happens: here the second request completes for an id without a live entry,
   and its stream is still not stored, so the next lookup finds nothing.
   */
  lemma {:induction false} ExpiredEntryBlocks(h: EndpointsHash)
    ensures var s := Run(h, EMPTY, EXPIRING); var t := Step(h, s, Updated(1));
      && Completes(s, t, 1) && Alive(t, 1) && t.actions[1].Held() == Some(1)
      && 7 !in LiveView(s) && 7 !in LiveView(t)
      && GetStreamById(t, 7).1.Request?
  {
    var s := Run(h, EMPTY, EXPIRING);
    ExpiringRun(h);
    var t := Step(h, s, Updated(1));
    assert t.actions == map[1 := Request(7, Result, true, Some(1))] && t.store == s.store && t.cache == s.cache;
    assert HeldByAction(t, 1) by {
      assert 1 in t.actions && t.actions[1].Held() == Some(1);
    }
    NobodyHolds(s);
    NobodyHolds(t);
  }

  lemma {:induction false} NobodyHolds(s: State)
    requires s.store.Keys == {Key(2, 0, 7)} && s.store[Key(2, 0, 7)].stream.upstream == None
    requires s.actions.Keys == {1} && s.actions[1].Held() != Some(0)
    ensures !Alive(s, 0)
  {
    assert forall k :: k in s.store ==> k == Key(2, 0, 7);
    assert forall g :: g in s.actions ==> g == 1;
  }
}
