/** What a client sends for a server only reaches streams to that server. */
module RightServer {
  import opened Wire
  import opened Flatten
  import opened GatewayModel
  import opened GatewayInvariant
  import opened GatewaySteps
  import opened FanOut
  import opened Entries

  /** A resolver answers with the server it was asked for. */
  predicate AnswerMatches(s: State, e: Event) {
    e.Answered? && e.session in s.actions && s.actions[e.session].Waiting() && e.servers != [] ==>
      e.servers[0].serverId == s.actions[e.session].id
  }

  ghost predicate AnswersMatch(h: EndpointsHash, s: State, events: seq<Event>)
    decreases |events|
  {
    events != [] ==> AnswerMatches(s, events[0]) && AnswersMatch(h, Step(h, s, events[0]), events[1..])
  }

  function ServerOf(s: State, st: StreamRef): Server
    requires st < |s.streams| && s.streams[st].server < |s.servers|
  {
    s.servers[s.streams[st].server]
  }

  // A cached stream was built on the server Aether holds for its id.
  ghost predicate CachedRight(s: State, id: ServerId, st: StreamRef) {
    && st < |s.streams| && s.streams[st].server < |s.servers|
    && ServerOf(s, st).id == id
    && (id != 0 ==> id in s.aether && s.aether[id] == s.streams[st].server)
  }

  ghost predicate SessionRight(s: State, server: ServeKind, st: Option<StreamRef>) {
    st.Some? ==>
      && st.value < |s.streams| && s.streams[st.value].server < |s.servers|
      && Names(server, ServerOf(s, st.value))
  }

  ghost predicate ServersRight(s: State) {
    && (forall id :: id in s.cache ==> CachedRight(s, id, s.cache[id]))
    && (forall g :: 0 <= g < |s.sessions| ==> SessionRight(s, s.sessions[g].server, s.sessions[g].upstream))
    && (forall g :: g in s.actions ==>
          g < |s.sessions| && SessionRight(s, s.sessions[g].server, s.actions[g].Held()))
  }

  // Servers and streams are only added, and Aether's table only grows.
  ghost predicate Extends(s: State, t: State) {
    && s.servers <= t.servers
    && |s.streams| <= |t.streams|
    && (forall st :: 0 <= st < |s.streams| ==> t.streams[st].server == s.streams[st].server)
    && (forall id :: id in s.aether ==> id in t.aether && t.aether[id] == s.aether[id])
  }

  lemma {:induction false} RightStays(s: State, t: State)
    requires Extends(s, t)
    ensures forall id, st :: CachedRight(s, id, st) ==> CachedRight(t, id, st)
    ensures forall server, st :: SessionRight(s, server, st) ==> SessionRight(t, server, st)
  {
  }

  lemma {:induction false} BuildServerRight(s: State, id: ServerId, endpoints: ServerEndpoints)
    requires TablesOk(s.cache, s.streams, s.servers, s.aether, s.cloud)
    ensures var (t, ref) := BuildServer(s, id, endpoints);
      && Extends(s, t) && ref < |t.servers| && t.servers[ref].id == id
      && (id != 0 ==> id in t.aether && t.aether[id] == ref)
      && (id == 0 ==> t.servers[ref] == Server(0, endpoints))
      && t.cache == s.cache && t.sessions == s.sessions && t.actions == s.actions && t.streams == s.streams
  {
  }

  lemma {:induction false} ResolveRight(s: State, g: SessionId, id: ServerId, server: ServerRef)
    requires ServersRight(s) && g in s.actions && g < |s.sessions| && s.sessions[g].server == ById(id)
    requires server < |s.servers| && s.servers[server].id == id
    requires id != 0 ==> id in s.aether && s.aether[id] == server
    ensures ServersRight(Resolve(s, g, id, server))
  {
    var (s1, st) := MakeStream(s, server);
    RightStays(s, s1);
    assert CachedRight(s1, id, st);
    CacheStreamRight(s1, id, st);
    var s2 := CacheStream(s1, id, st);
    assert SessionRight(s2, ById(id), Some(st));
    HoldRight(s2, g, Request(id, Result, true, Some(st)));
  }

  lemma {:induction false} CacheStreamRight(s: State, id: ServerId, st: StreamRef)
    requires ServersRight(s) && CachedRight(s, id, st)
    ensures ServersRight(CacheStream(s, id, st))
  {
    RightStays(s, CacheStream(s, id, st));
  }

  lemma {:induction false} HoldRight(s: State, g: SessionId, action: GetAction)
    requires ServersRight(s) && g < |s.sessions| && SessionRight(s, s.sessions[g].server, action.Held())
    ensures ServersRight(AddAction(s, g, action))
  {
    RightStays(s, AddAction(s, g, action));
  }

  lemma {:induction false} UpdateRight(h: EndpointsHash, s: State, g: SessionId)
    requires Inv(h, s) && ServersRight(s)
    ensures ServersRight(UpdateAction(s, g))
  {
    if g in s.actions {
      UpdateOneRight(s, g);
    }
  }

  lemma {:induction false} UpdateOneRight(s: State, g: SessionId)
    requires ServersRight(s) && TablesOk(s.cache, s.streams, s.servers, s.aether, s.cloud)
    requires g in s.actions && g < |s.sessions| && ActionOk(s.actions[g], s.sessions[g], |s.streams|)
    ensures ServersRight(UpdateAction(s, g))
  {
    match s.actions[g]
    case Existing(st) => ReportRight(s, g, st);
    case Request(id, state, changed, found) =>
      if changed {
        match state
        case CheckServerExists =>
          if id in s.aether {
            ResolveRight(s, g, id, s.aether[id]);
          } else {
            SetActionRight(s, g, Request(id, RequestServer, true, None));
          }
        case RequestServer => SetActionRight(s, g, Request(id, RequestServer, false, found));
        case Result => ReportRight(s, g, found.value);
        case Error => DropActionRight(s, g);
      }
  }

  lemma {:induction false} SetActionRight(s: State, g: SessionId, action: GetAction)
    requires ServersRight(s) && g in s.actions && action.Held() in {None, s.actions[g].Held()}
    ensures ServersRight(AddAction(s, g, action))
  {
    RightStays(s, AddAction(s, g, action));
  }

  lemma {:induction false} DropActionRight(s: State, g: SessionId)
    requires ServersRight(s)
    ensures ServersRight(DropAction(s, g))
  {
    RightStays(s, DropAction(s, g));
  }

  lemma {:induction false} ReportRight(s: State, g: SessionId, st: StreamRef)
    requires ServersRight(s) && g in s.actions && s.actions[g].Held() == Some(st)
    ensures ServersRight(Report(s, g, st))
  {
    RightStays(s, Report(s, g, st));
  }

  lemma {:induction false} AnswerRight(h: EndpointsHash, s: State, g: SessionId, servers: seq<ServerDescriptor>)
    requires Inv(h, s) && ServersRight(s) && AnswerMatches(s, Answered(g, servers))
    ensures ServersRight(Answer(s, g, servers))
  {
    if g in s.actions && s.actions[g].Waiting() && servers != [] {
      assert ActionOk(s.actions[g], s.sessions[g], |s.streams|);
      var endpoints := Endpoints(servers[0].ips);
      var (s1, server) := BuildServer(s, servers[0].serverId, endpoints);
      BuildServerRight(s, servers[0].serverId, endpoints);
      RightStays(s, s1);
      ResolveRight(s1, g, s.actions[g].id, server);
    }
  }

  lemma {:induction false} PacketRight(h: EndpointsHash, s: State, e: Event)
    requires Inv(h, s) && ServersRight(s) && e.Packet?
    ensures ServersRight(Step(h, s, e))
  {
    var want := e.call.Wanted();
    var key := MakeKey(h, e.device, e.call.client, want);
    OpenStreamRight(h, s, key, want, e.now);
    WriteRight(OpenStream(s, key, want, e.now), key, Item(want, e.call.data));
  }

  lemma {:induction false} WriteRight(s: State, key: Key, item: Item)
    requires ServersRight(s)
    ensures ServersRight(Write(s, key, item))
  {
    RightStays(s, Write(s, key, item));
  }

  lemma {:induction false} OpenStreamRight(h: EndpointsHash, s: State, key: Key, want: ServeKind, now: TimePoint)
    requires TablesOk(s.cache, s.streams, s.servers, s.aether, s.cloud) && ServersRight(s)
    ensures ServersRight(OpenStream(s, key, want, now))
  {
    if key in s.store {
      RightStays(s, Touch(s, key, now));
    } else {
      var (s1, action) := GetStream(s, want);
      GetStreamRight(s, want);
      OpenSessionRight(s1, key, want, action, now);
    }
  }

  lemma {:induction false} GetStreamRight(s: State, want: ServeKind)
    requires TablesOk(s.cache, s.streams, s.servers, s.aether, s.cloud) && ServersRight(s)
    ensures var (s1, action) := GetStream(s, want); ServersRight(s1) && SessionRight(s1, want, action.Held())
  {
    var s1 := GetStream(s, want).0;
    match want
    case ById(id) =>
      RightStays(s, s1);
      assert id in s1.cache ==> CachedRight(s, id, s.cache[id]);
    case ByEndpoints(eps) =>
      BuildServerRight(s, 0, eps);
      RightStays(s, s1);
  }

  lemma {:induction false} OpenSessionRight(s: State, key: Key, want: ServeKind, action: GetAction, now: TimePoint)
    requires ServersRight(s) && SessionRight(s, want, action.Held())
    ensures ServersRight(OpenSession(s, key, want, action, now))
  {
    RightStays(s, OpenSession(s, key, want, action, now));
  }

  lemma {:induction false} StepRight(h: EndpointsHash, s: State, e: Event)
    requires Inv(h, s) && ServersRight(s) && AnswerMatches(s, e)
    ensures ServersRight(Step(h, s, e))
  {
    match e
    case Packet(_, _, _) => PacketRight(h, s, e);
    case Updated(g) => UpdateRight(h, s, g);
    case Answered(g, servers) => AnswerRight(h, s, g, servers);
    case Replied(_, _, _) =>
      StreamEventFrame(h, s, e);
      RightStays(s, Step(h, s, e));
    case LinkChanged(_, _) =>
      StreamEventFrame(h, s, e);
      RightStays(s, Step(h, s, e));
    case _ =>
      OtherRight(h, s, e);
  }

  lemma {:induction false} OtherRight(h: EndpointsHash, s: State, e: Event)
    requires ServersRight(s)
    requires e.Refused? || e.Drained? || e.Sent? || e.StreamUpdated? || e.ServerLearned?
    ensures ServersRight(Step(h, s, e))
  {
    var t := Step(h, s, e);
    OtherFrame(h, s, e);
    RightStays(s, t);
  }

  lemma {:induction false} OtherFrame(h: EndpointsHash, s: State, e: Event)
    requires e.Refused? || e.Drained? || e.Sent? || e.StreamUpdated? || e.ServerLearned?
    ensures var t := Step(h, s, e);
      && Extends(s, t)
      && t.cache == s.cache && t.sessions == s.sessions
      && (forall g :: g in t.actions ==> g in s.actions && t.actions[g].Held() in {None, s.actions[g].Held()})
  {
  }

  lemma {:induction false} RunRight(h: EndpointsHash, s: State, events: seq<Event>)
    requires Inv(h, s) && ServersRight(s) && AnswersMatch(h, s, events)
    ensures ServersRight(Run(h, s, events))
    decreases |events|
  {
    if events != [] {
      StepKeeps(h, s, events[0]);
      StepRight(h, s, events[0]);
      RunRight(h, Step(h, s, events[0]), events[1..]);
    }
  }

  /* ---- Which server an item reaches ---- */

  /** The servers named in the packets of a run. */
  predicate InUse(events: seq<Event>, server: ServeKind) {
    exists i :: 0 <= i < |events| && events[i].Packet? && events[i].call.Wanted() == server
  }

  /** Different servers in use have different identities in keys. */
  ghost predicate IdentitiesDiffer(h: EndpointsHash, events: seq<Event>) {
    forall a, b :: InUse(events, a) && InUse(events, b) && Identity(h, a) == Identity(h, b) ==> a == b
  }

  // Every session, and every item it was given, names a server in use.
  ghost predicate Named(events: seq<Event>, s: State) {
    forall g :: 0 <= g < |s.sessions| ==>
      && InUse(events, s.sessions[g].server)
      && (forall i :: 0 <= i < |s.sessions[g].written| ==> InUse(events, s.sessions[g].written[i].want))
  }

  // Sessions may have been tied, and are the same otherwise.
  ghost predicate OnlyTies(sessions: seq<Session>, sessions': seq<Session>) {
    && |sessions'| == |sessions|
    && (forall x :: 0 <= x < |sessions| ==> sessions'[x] == sessions[x].(upstream := sessions'[x].upstream))
  }

  lemma {:induction false} UpdateSessions(s: State, g: SessionId)
    ensures OnlyTies(s.sessions, UpdateAction(s, g).sessions)
  {
    if g in s.actions {
      match s.actions[g]
      case Existing(st) => ReportSessions(s, g, st);
      case Request(id, state, changed, found) =>
        if found.Some? {
          ReportSessions(s, g, found.value);
        }
        if id in s.aether {
          ResolveFrame(s, g, id, s.aether[id]);
        }
    }
  }

  lemma {:induction false} ReportSessions(s: State, g: SessionId, st: StreamRef)
    ensures OnlyTies(s.sessions, Report(s, g, st).sessions)
  {
  }

  lemma {:induction false} StepNamed(h: EndpointsHash, events: seq<Event>, s: State, e: Event)
    requires Inv(h, s) && Named(events, s)
    requires e.Packet? ==> InUse(events, e.call.Wanted())
    ensures Named(events, Step(h, s, e))
  {
    match e
    case Packet(_, _, _) => PacketNamed(h, events, s, e);
    case Updated(g) => UpdateSessions(s, g);
    case Answered(g, servers) => AnswerSessions(s, g, servers);
    case _ => QuietNamed(h, events, s, e);
  }

  lemma {:induction false} QuietNamed(h: EndpointsHash, events: seq<Event>, s: State, e: Event)
    requires Inv(h, s) && Named(events, s)
    requires !e.Packet? && !e.Updated? && !e.Answered?
    ensures Named(events, Step(h, s, e))
  {
    if e.Replied? || e.LinkChanged? {
      StreamEventFrame(h, s, e);
    }
  }

  lemma {:induction false} AnswerSessions(s: State, g: SessionId, servers: seq<ServerDescriptor>)
    ensures Answer(s, g, servers).sessions == s.sessions
  {
  }

  lemma {:induction false} PacketNamed(h: EndpointsHash, events: seq<Event>, s: State, e: Event)
    requires Named(events, s) && e.Packet? && InUse(events, e.call.Wanted())
    ensures Named(events, Step(h, s, e))
  {
    var want := e.call.Wanted();
    var key := MakeKey(h, e.device, e.call.client, want);
    GetStreamFrame(s, want);
    var s1 := OpenStream(s, key, want, e.now);
    assert Named(events, s1);
  }

  lemma {:induction false} RunNamed(h: EndpointsHash, events: seq<Event>, s: State, rest: seq<Event>)
    requires Inv(h, s) && Named(events, s)
    requires forall i :: 0 <= i < |rest| && rest[i].Packet? ==> InUse(events, rest[i].call.Wanted())
    ensures Named(events, Run(h, s, rest))
    decreases |rest|
  {
    if rest != [] {
      StepKeeps(h, s, rest[0]);
      StepNamed(h, events, s, rest[0]);
      RunNamed(h, events, Step(h, s, rest[0]), rest[1..]);
    }
  }

  lemma {:induction false} OfMember(received: seq<Tagged>, i: nat)
    requires i < |received|
    ensures received[i].item in Of(received, received[i].session)
  {
    if i < |received| - 1 {
      OfMember(received[..|received| - 1], i);
    }
  }

  /**
   In every run in which servers in use have different identities and the
   resolver answers with the server it was asked for, each item a stream received
   asked for the server that stream is built on.
   */
  lemma {:induction false} ReachesTheRightServer(h: EndpointsHash, events: seq<Event>, st: StreamRef, i: nat)
    requires IdentitiesDiffer(h, events) && AnswersMatch(h, EMPTY, events)
    requires var s := Run(h, EMPTY, events); st < |s.streams| && i < |s.streams[st].received|
    ensures var s := Run(h, EMPTY, events);
      && s.streams[st].server < |s.servers|
      && Names(s.streams[st].received[i].item.want, ServerOf(s, st))
  {
    var s := Run(h, EMPTY, events);
    Reachable(h, events);
    RunRight(h, EMPTY, events);
    RunNamed(h, events, EMPTY, events);
    ReceivedNames(h, events, s, st, i);
  }

  lemma {:induction false} ReceivedNames(h: EndpointsHash, events: seq<Event>, s: State, st: StreamRef, i: nat)
    requires IdentitiesDiffer(h, events) && Inv(h, s) && ServersRight(s) && Named(events, s)
    requires st < |s.streams| && i < |s.streams[st].received|
    ensures s.streams[st].server < |s.servers| && Names(s.streams[st].received[i].item.want, ServerOf(s, st))
  {
    var t := s.streams[st].received[i];
    var g := t.session;
    assert ReceivedOk(s.streams[st].received, st, s.sessions);
    assert Forwarded(s.streams, s.sessions[g].upstream, g) <= s.sessions[g].written;
    OfMember(s.streams[st].received, i);
    var j :| 0 <= j < |s.sessions[g].written| && s.sessions[g].written[j] == t.item;
    assert SessionOk(h, s.sessions[g], |s.streams|);
    assert SessionRight(s, s.sessions[g].server, Some(st));
  }

  /**
   Rebuilding the key from an entry's device, client and stored server always
   gives the entry's own key, whatever the hash is: its number is the id the entry
   was opened for, or the low 32 bits of the hash of all endpoints.
   */
  lemma {:induction false} KeysRebuild(h: EndpointsHash, events: seq<Event>, key: Key)
    requires key in Run(h, EMPTY, events).store
    ensures MakeKey(h, key.device, key.client, Run(h, EMPTY, events).store[key].server) == key
    ensures match Run(h, EMPTY, events).store[key].server
            case ById(id) => key.server == id
            case ByEndpoints(endpoints) => key.server == h(endpoints) % 0x1_0000_0000
  {
    var s := Run(h, EMPTY, events);
    Reachable(h, events);
    assert EntryOk(key, s.store[key], s.sessions);
    assert SessionOk(h, s.sessions[s.store[key].stream.id], |s.streams|);
  }

  /**
   With different identities for the servers in use the session table behaves like
   a map from device, client and server: the entry under the key of a triple was
   opened for that server.
   */
  lemma {:induction false} TableIsKeyedByServer(h: EndpointsHash, events: seq<Event>, device: DeviceId,
                                                client: ClientId,
                                                want: ServeKind)
    requires IdentitiesDiffer(h, events) && InUse(events, want)
    requires MakeKey(h, device, client, want) in Run(h, EMPTY, events).store
    ensures Run(h, EMPTY, events).store[MakeKey(h, device, client, want)].server == want
  {
    var s, key := Run(h, EMPTY, events), MakeKey(h, device, client, want);
    Reachable(h, events);
    RunNamed(h, events, EMPTY, events);
    assert EntryOk(key, s.store[key], s.sessions);
    assert SessionOk(h, s.sessions[s.store[key].stream.id], |s.streams|);
  }

  /** The order of the table tells two keys apart exactly when they differ. */
  lemma {:induction false} KeyOrderIsTotal(a: Key, b: Key, c: Key)
    ensures a == b <==> !KeyLess(a, b) && !KeyLess(b, a)
    ensures !(KeyLess(a, b) && KeyLess(b, a))
    ensures KeyLess(a, b) && KeyLess(b, c) ==> KeyLess(a, c)
  {
  }

  /** Runs that only name servers by id need no assumption about the hash. */
  lemma {:induction false} IdsNeedNoHash(h: EndpointsHash, events: seq<Event>)
    requires forall i :: 0 <= i < |events| && events[i].Packet? ==> events[i].call.ToServerId?
    ensures IdentitiesDiffer(h, events)
  {
  }
}
