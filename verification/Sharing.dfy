/** When sessions that ask for the same server id share one stream. */
module Sharing {
  import opened Wire
  import opened Flatten
  import opened GatewayModel
  import opened GatewayInvariant
  import opened GatewaySteps
  import opened FanOut
  import opened Entries
  import opened Liveness

  /** The event asks for a server id that an earlier request is still being resolved for. */
  predicate Overlaps(h: EndpointsHash, s: State, e: Event, id: ServerId) {
    && e.Packet? && e.call.ToServerId? && e.call.serverId == id
    && MakeKey(h, e.device, e.call.client, e.call.Wanted()) !in s.store
    && id !in LiveView(s)
    && exists g :: g in s.actions && Pending(s.actions[g], id)
  }

  predicate Pending(action: GetAction, id: ServerId) {
    action.Unresolved() && action.id == id
  }

  /** In no event of the run do requests for the id overlap. */
  ghost predicate NoOverlaps(h: EndpointsHash, s: State, events: seq<Event>, id: ServerId)
    decreases |events|
  {
    events != [] ==> !Overlaps(h, s, events[0], id) && NoOverlaps(h, Step(h, s, events[0]), events[1..], id)
  }

  // At most one request for the id is unresolved, and then the id is not cached.
  ghost predicate OnePending(s: State, id: ServerId) {
    && (forall g :: g in s.actions && Pending(s.actions[g], id) ==> id !in s.cache)
    && (forall g, g' :: g in s.actions && g' in s.actions && Pending(s.actions[g], id) && Pending(s.actions[g'], id) ==>
          g == g')
  }

  // The event brings the request of session g to its result.
  predicate Completes(s: State, t: State, g: SessionId) {
    && g in s.actions && s.actions[g].Unresolved()
    && g in t.actions && t.actions[g].Request? && t.actions[g].state == Result
  }

  lemma {:induction false} ResolveCaches(s: State, g: SessionId, server: ServerRef, id: ServerId)
    requires OnePending(s, id) && g in s.actions && s.actions[g].Unresolved()
    ensures OnePending(Resolve(s, g, s.actions[g].id, server), id)
  {
    var t := Resolve(s, g, s.actions[g].id, server);
    assert t.cache == CacheStream(MakeStream(s, server).0, s.actions[g].id, |s.streams|).cache;
    assert t.actions == s.actions[g := Request(s.actions[g].id, Result, true, Some(|s.streams|))];
  }

  lemma {:induction false} PacketOnePending(h: EndpointsHash, s: State, e: Event, id: ServerId)
    requires OnePending(s, id) && e.Packet? && !Overlaps(h, s, e, id)
    requires forall g :: g in s.actions ==> g < |s.sessions|
    ensures OnePending(Step(h, s, e), id)
  {
    PacketFrame(h, s, e);
    var want := e.call.Wanted();
    var t := Step(h, s, e);
    if MakeKey(h, e.device, e.call.client, want) in s.store {
      KnownKeyPacket(h, s, e);
    } else if Pending(GetStream(s, want).1, id) {
      PendingPacketPurges(h, s, e, id);
    } else {
      assert forall x :: x in t.cache ==> x in s.cache;
    }
  }

  lemma {:induction false} KnownKeyPacket(h: EndpointsHash, s: State, e: Event)
    requires e.Packet? && MakeKey(h, e.device, e.call.client, e.call.Wanted()) in s.store
    ensures Step(h, s, e).actions == s.actions && Step(h, s, e).cache == s.cache
  {
  }

  // A packet that begins a request has found no live stream, and has purged the cache.
  lemma {:induction false} PendingPacketPurges(h: EndpointsHash, s: State, e: Event, id: ServerId)
    requires e.Packet? && MakeKey(h, e.device, e.call.client, e.call.Wanted()) !in s.store
    requires Pending(GetStream(s, e.call.Wanted()).1, id)
    ensures Step(h, s, e).cache == LiveView(s) && id !in LiveView(s)
  {
    var want := e.call.Wanted();
    var key := MakeKey(h, e.device, e.call.client, want);
    WriteFrame(OpenStream(s, key, want, e.now), key, Item(want, e.call.data));
  }

  lemma {:induction false} StepOnePending(h: EndpointsHash, s: State, e: Event, id: ServerId)
    requires Inv(h, s) && OnePending(s, id) && !Overlaps(h, s, e, id)
    ensures OnePending(Step(h, s, e), id)
  {
    if e.Packet? {
      ActionsBounded(h, s);
      PacketOnePending(h, s, e, id);
    } else if e.Replied? || e.LinkChanged? {
      StreamEventFrame(h, s, e);
    } else {
      OwnOnePending(h, s, e, id);
    }
  }

  lemma {:induction false} ActionsBounded(h: EndpointsHash, s: State)
    requires Inv(h, s)
    ensures forall g :: g in s.actions ==> g < |s.sessions|
  {
  }

  lemma {:induction false} OwnOnePending(h: EndpointsHash, s: State, e: Event, id: ServerId)
    requires OnePending(s, id) && !e.Packet? && !e.Replied? && !e.LinkChanged?
    ensures OnePending(Step(h, s, e), id)
  {
    match e
    case Updated(g) => UpdateOnePending(s, g, id);
    case Answered(g, servers) => AnswerOnePending(s, g, servers, id);
    case Drained(key) => DrainFrame(s, key);
    case StreamUpdated(key) => EraseFrame(s, key);
    case _ =>
  }

  lemma {:induction false} UpdateOnePending(s: State, g: SessionId, id: ServerId)
    requires OnePending(s, id)
    ensures OnePending(UpdateAction(s, g), id)
  {
    if g in s.actions && s.actions[g].Unresolved() && s.actions[g].id in s.aether {
      ResolveCaches(s, g, s.aether[s.actions[g].id], id);
    }
  }

  lemma {:induction false} AnswerOnePending(s: State, g: SessionId, servers: seq<ServerDescriptor>, id: ServerId)
    requires OnePending(s, id)
    ensures OnePending(Answer(s, g, servers), id)
  {
    if g in s.actions && s.actions[g].Waiting() && servers != [] {
      var (s1, server) := BuildServer(s, servers[0].serverId, Endpoints(servers[0].ips));
      ResolveCaches(s1, g, server, id);
    }
  }

  lemma {:induction false} RunOnePending(h: EndpointsHash, s: State, events: seq<Event>, id: ServerId)
    requires Inv(h, s) && OnePending(s, id) && NoOverlaps(h, s, events, id)
    ensures OnePending(Run(h, s, events), id)
    decreases |events|
  {
    if events != [] {
      StepKeeps(h, s, events[0]);
      StepOnePending(h, s, events[0], id);
      RunOnePending(h, Step(h, s, events[0]), events[1..], id);
    }
  }

  /** In every reachable state, a completing request becomes the cached one if and only if its id is not cached yet. */
  lemma {:induction false} CompletionCachedWhen(h: EndpointsHash, events: seq<Event>, e: Event, g: SessionId)
    requires Completes(Run(h, EMPTY, events), Step(h, Run(h, EMPTY, events), e), g)
    ensures var s := Run(h, EMPTY, events); var t := Step(h, s, e); var id := s.actions[g].id;
      && t.actions[g].found == Some(|s.streams|)
      && (id in t.cache && t.cache[id] == |s.streams| <==> id !in s.cache)
  {
    Reachable(h, events);
    CompletionCachedIn(h, Run(h, EMPTY, events), e, g);
  }

  lemma {:induction false} CompletionCachedIn(h: EndpointsHash, s: State, e: Event, g: SessionId)
    requires Inv(h, s) && Completes(s, Step(h, s, e), g)
    ensures var t := Step(h, s, e); var id := s.actions[g].id;
      && t.actions[g].found == Some(|s.streams|)
      && Alive(t, |s.streams|)
      && (id in t.cache && t.cache[id] == |s.streams| <==> id !in s.cache)
  {
    if e == Updated(g) || e == Refused(g) || (e.Answered? && e.session == g) {
      OwnCompletion(h, s, e, g);
    } else {
      assert g < |s.sessions|;
      OtherActions(h, s, e, g);
      assert false;
    }
  }

  lemma {:induction false} OwnCompletion(h: EndpointsHash, s: State, e: Event, g: SessionId)
    requires Completes(s, Step(h, s, e), g) && (forall id :: id in s.cache ==> s.cache[id] < |s.streams|)
    requires e == Updated(g) || e == Refused(g) || (e.Answered? && e.session == g)
    ensures var t := Step(h, s, e); var id := s.actions[g].id;
      && t.actions[g].found == Some(|s.streams|)
      && Alive(t, |s.streams|)
      && (id in t.cache && t.cache[id] == |s.streams| <==> id !in s.cache)
  {
    assert HeldByAction(Step(h, s, e), |s.streams|);
  }

  lemma {:induction false} StepKeepsCached(h: EndpointsHash, s: State, e: Event, id: ServerId, st: StreamRef)
    requires Inv(h, s) && id in s.cache && s.cache[id] == st && Alive(s, st)
    ensures var t := Step(h, s, e); id in t.cache && t.cache[id] == st
  {
    if e.Replied? || e.LinkChanged? {
      StreamEventFrame(h, s, e);
    } else {
      OwnKeepsCached(h, s, e, id, st);
    }
  }

  lemma {:induction false} OwnKeepsCached(h: EndpointsHash, s: State, e: Event, id: ServerId, st: StreamRef)
    requires !e.Replied? && !e.LinkChanged? && id in s.cache && s.cache[id] == st && Alive(s, st)
    ensures var t := Step(h, s, e); id in t.cache && t.cache[id] == st
  {
    match e
    case Packet(_, _, _) =>
      PacketFrame(h, s, e);
      assert id in LiveView(s);
    case Updated(g) => UpdateFrame(s, g);
    case Answered(g, servers) => AnswerFrame(s, g, servers);
    case Drained(key) => DrainFrame(s, key);
    case StreamUpdated(key) => EraseFrame(s, key);
    case _ =>
  }

  /** A cached stream stays the answer for its id for as long as it is alive. */
  lemma {:induction false} CachedWhileAlive(h: EndpointsHash, s: State, events: seq<Event>, id: ServerId, st: StreamRef)
    requires Inv(h, s) && id in s.cache && s.cache[id] == st
    requires Alive(Run(h, s, events), st)
    ensures var t := Run(h, s, events);
      && id in t.cache && t.cache[id] == st
      && GetStreamById(t, id).1 == Existing(st)
    decreases |events|
  {
    if events != [] {
      if !Alive(s, st) {
        DeadStays(h, s, events, st);
      }
      StepKeeps(h, s, events[0]);
      StepKeepsCached(h, s, events[0], id, st);
      CachedWhileAlive(h, Step(h, s, events[0]), events[1..], id, st);
    }
  }

  /**
   In every run whose requests for one id do not overlap: once a request for an
   id completes, every later lookup of that id gives the same stream, for as long
   as that stream is alive.
   */
  lemma {:induction false} SharedOnceResolved(h: EndpointsHash, before: seq<Event>, e: Event, after: seq<Event>,
                                              g: SessionId)
    requires Completes(Run(h, EMPTY, before), Run(h, EMPTY, before + [e]), g)
    requires NoOverlaps(h, EMPTY, before, Run(h, EMPTY, before).actions[g].id)
    requires Alive(Run(h, EMPTY, before + [e] + after), |Run(h, EMPTY, before).streams|)
    ensures var s := Run(h, EMPTY, before);
      var id := s.actions[g].id;
      && Run(h, EMPTY, before + [e]).actions[g].found == Some(|s.streams|)
      && GetStreamById(Run(h, EMPTY, before + [e] + after), id).1 == Existing(|s.streams|)
  {
    var s := Run(h, EMPTY, before);
    Reachable(h, before);
    RunOnePending(h, EMPTY, before, s.actions[g].id);
    assert Pending(s.actions[g], s.actions[g].id);
    RunBoth(h, EMPTY, before, [e]);
    RunBoth(h, EMPTY, before + [e], after);
    var t := Step(h, s, e);
    RunOne(h, s, e);
    CompletionCachedIn(h, s, e, g);
    StepKeeps(h, s, e);
    CachedWhileAlive(h, t, after, s.actions[g].id, |s.streams|);
  }

  /** From here on, every lookup of the id returns the stream for as long as it is alive. */
  ghost predicate SharedFrom(h: EndpointsHash, s: State, id: ServerId, st: StreamRef) {
    forall after: seq<Event> :: Alive(Run(h, s, after), st) ==> GetStreamById(Run(h, s, after), id).1 == Existing(st)
  }

  /**
   In every run: once a request for an id completes, every later lookup of the id
   returns its stream, for as long as that is alive, if and only if the id was not
   cached when the request completed.
   */
  lemma {:induction false} SharedExactlyWhen(h: EndpointsHash, before: seq<Event>, e: Event, g: SessionId)
    requires Completes(Run(h, EMPTY, before), Step(h, Run(h, EMPTY, before), e), g)
    ensures var s := Run(h, EMPTY, before); var id := s.actions[g].id;
      SharedFrom(h, Step(h, s, e), id, |s.streams|) <==> id !in s.cache
  {
    var s := Run(h, EMPTY, before);
    var t := Step(h, s, e);
    var id := s.actions[g].id;
    Reachable(h, before);
    CompletionCachedIn(h, s, e, g);
    if id !in s.cache {
      StepKeeps(h, s, e);
      forall after | Alive(Run(h, t, after), |s.streams|)
        ensures GetStreamById(Run(h, t, after), id).1 == Existing(|s.streams|)
      {
        CachedWhileAlive(h, t, after, id, |s.streams|);
      }
    } else {
      assert Run(h, t, []) == t;
      assert GetStreamById(t, id).1 != Existing(|s.streams|);
    }
  }

  // Two devices ask for server 7 before either request is resolved; Aether learns of it meanwhile.
  function AskSeven(device: DeviceId): Event {
    Packet(device, ToServerId(0, 7, []), 0)
  }

  // Both requests are pending; session 0 is the first device's.
  ghost predicate BothAsked(s: State) {
    && s.actions == map[0 := Request(7, CheckServerExists, true, None), 1 := Request(7, CheckServerExists, true, None)]
    && s.cache == map[] && s.streams == [] && s.servers == [] && s.aether == map[]
    && s.store.Keys == {Key(1, 0, 7), Key(2, 0, 7)}
    && |s.sessions| == 2 && s.sessions[0].key == Key(1, 0, 7)
    && s.store[Key(1, 0, 7)].stream.id == 0 && s.store[Key(2, 0, 7)].stream.upstream == None
  }

  lemma {:induction false} OneAsks(h: EndpointsHash)
    ensures var s := Step(h, EMPTY, AskSeven(1));
      && s.actions == map[0 := Request(7, CheckServerExists, true, None)]
      && s.cache == map[] && s.streams == [] && s.servers == [] && s.aether == map[]
      && s.store.Keys == {Key(1, 0, 7)} && s.store[Key(1, 0, 7)].stream.id == 0
      && |s.sessions| == 1 && s.sessions[0].key == Key(1, 0, 7)
  {
  }

  lemma {:induction false} BothAsk(h: EndpointsHash)
    ensures BothAsked(Step(h, Step(h, EMPTY, AskSeven(1)), AskSeven(2)))
  {
    OneAsks(h);
    var s := Step(h, EMPTY, AskSeven(1));
    var t := Step(h, s, AskSeven(2));
    assert t.actions == s.actions[1 := Request(7, CheckServerExists, true, None)];
    assert t.store.Keys == s.store.Keys + {Key(2, 0, 7)};
  }

  const OVERLAPPING := [AskSeven(1), AskSeven(2), ServerLearned(Server(7, [])), Updated(0)]

  /**
   Without that condition sharing fails: in this run two requests for server 7
   overlap, and the second one completes with a stream that no lookup returns.
   */
  lemma {:induction false} OverlapBreaksSharing(h: EndpointsHash)
    ensures !NoOverlaps(h, EMPTY, OVERLAPPING, 7)
    ensures var s := Run(h, EMPTY, OVERLAPPING); var t := Step(h, s, Updated(1));
      && Completes(s, t, 1)
      && t.actions[1].found == Some(1)
      && GetStreamById(t, 7).1 == Existing(0)
  {
    OneAsks(h);
    BothAsk(h);
    var s1 := Step(h, EMPTY, OVERLAPPING[0]);
    assert 0 in s1.actions && Pending(s1.actions[0], 7);
    var s2 := Step(h, s1, OVERLAPPING[1]);
    assert Overlaps(h, s1, OVERLAPPING[1], 7);
    RunFour(h, EMPTY, OVERLAPPING);
    SecondIsLost(h, s2);
  }

  lemma {:induction false} SecondIsLost(h: EndpointsHash, s2: State)
    requires BothAsked(s2)
    ensures var s := Step(h, Step(h, s2, OVERLAPPING[2]), OVERLAPPING[3]); var t := Step(h, s, Updated(1));
      && Completes(s, t, 1)
      && t.actions[1].found == Some(1)
      && GetStreamById(t, 7).1 == Existing(0)
  {
    var s4 := Step(h, Step(h, s2, OVERLAPPING[2]), OVERLAPPING[3]);
    assert s4.cache == map[7 := 0] && |s4.streams| == 1;
    assert 0 in s4.actions && s4.actions[0] == Request(7, Result, true, Some(0));
    assert 1 in s4.actions && s4.actions[1] == Request(7, CheckServerExists, true, None);
    var t := Step(h, s4, Updated(1));
    assert t.cache == map[7 := 0] && 0 in t.actions && t.actions[0].Held() == Some(0);
    assert HeldByAction(t, 0);
  }
}
