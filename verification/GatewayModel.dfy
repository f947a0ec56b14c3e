/**
 The gateway as one state machine: the session table of the local port, the
 streams to servers, the weak stream cache, the pending get-actions, and the
 server tables. Pointers are handles: a server is an index into `servers`, a
 server stream an index into `streams`, a session an index into `sessions`.
 */
module GatewayModel {
  import opened Wire
  import opened Flatten

  type StreamRef = nat
  type ServerRef = nat
  type SessionId = nat

  datatype LinkState = Unlinked | Linked | LinkError

  // One datum a client asked to be sent, with the server it asked for.
  datatype Item = Item(want: ServeKind, data: DataBuffer)
  datatype Tagged = Tagged(session: SessionId, item: Item)

  // GwStream: buffers until it is tied to a server stream.
  datatype GwStream = GwStream(id: SessionId, upstream: Option<StreamRef>, buffer: seq<Item>)

  datatype StreamStore = StreamStore(lastUsed: TimePoint, server: ServeKind, stream: GwStream)

  // ServerStream: everything written to it, how much of that has left its own
  // buffer, and the sessions that listen to it, in the order they were tied.
  datatype ServerStream = ServerStream(
    server: ServerRef,
    received: seq<Tagged>,
    sent: nat,
    link: LinkState,
    listeners: seq<SessionId>)

  datatype ResolveState = CheckServerExists | RequestServer | Result | Error

  datatype GetAction =
    | Existing(stream: StreamRef)
    | Request(id: ServerId, state: ResolveState, changed: bool, found: Option<StreamRef>)
  {
    // The stream an action owns.
    function Held(): Option<StreamRef> {
      match this
      case Existing(st) => Some(st)
      case Request(_, _, _, found) => found
    }

    // Has the action asked the resolver, and is it waiting for the answer?
    predicate Waiting() {
      Request? && state == RequestServer && !changed
    }

    // Has the action still to store a stream in the cache?
    predicate Unresolved() {
      Request? && state in {CheckServerExists, RequestServer}
    }
  }

  // What is known of a session since it was opened; `key` is the key its event
  // handlers captured.
  datatype Session = Session(key: Key, server: ServeKind, written: seq<Item>, upstream: Option<StreamRef>)

  datatype Output = Output(device: DeviceId, call: ClientCall, session: SessionId)

  // One call of CacheStream; the state keeps a log of them.
  datatype CacheCall = CacheCall(id: ServerId, stream: StreamRef)

  datatype State = State(
    store: map<Key, StreamStore>,
    cache: map<ServerId, StreamRef>,
    streams: seq<ServerStream>,
    servers: seq<Server>,
    aether: map<ServerId, ServerRef>,
    cloud: seq<ServerRef>,
    actions: map<SessionId, GetAction>,
    sessions: seq<Session>,
    outputs: seq<Output>,
    cacheCalls: seq<CacheCall>)

  const EMPTY := State(map[], map[], [], [], map[], [], map[], [], [], [])

  /* ---- Ownership ---- */

  predicate HeldBySession(s: State, st: StreamRef) {
    exists k :: k in s.store && s.store[k].stream.upstream == Some(st)
  }

  predicate HeldByAction(s: State, st: StreamRef) {
    exists g :: g in s.actions && s.actions[g].Held() == Some(st)
  }

  /** A weak pointer to a stream has not expired. */
  predicate Alive(s: State, st: StreamRef) {
    HeldBySession(s, st) || HeldByAction(s, st)
  }

  /** The session is the one stored under its key. */
  predicate Live(s: State, g: SessionId) {
    g < |s.sessions| && s.sessions[g].key in s.store && s.store[s.sessions[g].key].stream.id == g
  }

  /* ---- ServerStreamManager ---- */

  function LiveView(s: State): map<ServerId, StreamRef> {
    map id | id in s.cache && Alive(s, s.cache[id]) :: s.cache[id]
  }

  function OpenCache(s: State): State {
    s.(cache := LiveView(s))
  }

  function CacheStream(s: State, id: ServerId, st: StreamRef): State {
    s.(cache := if id in s.cache then s.cache else s.cache[id := st],
       cacheCalls := s.cacheCalls + [CacheCall(id, st)])
  }

  function BuildServer(s: State, id: ServerId, endpoints: ServerEndpoints): (State, ServerRef) {
    if id != 0 && id in s.aether then
      (s, s.aether[id])
    else
      var ref := |s.servers|;
      (s.(servers := s.servers + [Server(id, endpoints)],
          cloud := s.cloud + [ref],
          aether := if id != 0 then s.aether[id := ref] else s.aether),
       ref)
  }

  function MakeStream(s: State, server: ServerRef): (State, StreamRef) {
    (s.(streams := s.streams + [ServerStream(server, [], 0, Unlinked, [])]), |s.streams|)
  }

  function AddAction(s: State, g: SessionId, action: GetAction): State {
    s.(actions := s.actions[g := action])
  }

  function GetStreamById(s: State, id: ServerId): (State, GetAction) {
    var s1 := OpenCache(s);
    if id in s1.cache then
      (s1, Existing(s1.cache[id]))
    else
      (s1, Request(id, CheckServerExists, true, None))
  }

  function GetStreamByEndpoints(s: State, endpoints: ServerEndpoints): (State, GetAction) {
    var (s1, server) := BuildServer(s, 0, endpoints);
    var (s2, st) := MakeStream(s1, server);
    (s2, Existing(st))
  }

  function GetStream(s: State, server: ServeKind): (State, GetAction) {
    match server
    case ById(id) => GetStreamById(s, id)
    case ByEndpoints(eps) => GetStreamByEndpoints(s, eps)
  }

  /* ---- LocalPort ---- */

  // A new GwStream, waiting for its get-action, is stored under the key.
  function OpenSession(s: State, key: Key, server: ServeKind, action: GetAction, now: TimePoint): State {
    var g := |s.sessions|;
    s.(store := s.store[key := StreamStore(now, server, GwStream(g, None, []))],
       actions := s.actions[g := action],
       sessions := s.sessions + [Session(key, server, [], None)])
  }

  function Touch(s: State, key: Key, now: TimePoint): State
    requires key in s.store
  {
    s.(store := s.store[key := s.store[key].(lastUsed := now)])
  }

  function OpenStream(s: State, key: Key, server: ServeKind, now: TimePoint): State {
    if key in s.store then
      Touch(s, key, now)
    else
      var (s1, action) := GetStream(s, server);
      OpenSession(s1, key, server, action, now)
  }

  // GwStream::Write: the datum joins the buffer of the session under the key.
  function Write(s: State, key: Key, item: Item): State {
    if key !in s.store || s.store[key].stream.id >= |s.sessions| then s
    else
      var e := s.store[key];
      var g := e.stream.id;
      s.(store := s.store[key := e.(stream := e.stream.(buffer := e.stream.buffer + [item]))],
         sessions := s.sessions[g := s.sessions[g].(written := s.sessions[g].written + [item])])
  }

  function OutData(s: State, key: Key, data: DataBuffer, now: TimePoint): State {
    if key !in s.store then s
    else
      Touch(s, key, now).(
        outputs := s.outputs + [Output(key.device, FromServer(key.client, data), s.store[key].stream.id)])
  }

  function Without(ids: seq<SessionId>, g: SessionId): seq<SessionId> {
    if ids == [] then []
    else if ids[0] == g then ids[1..]
    else [ids[0]] + Without(ids[1..], g)
  }

  // The session's GwStream is destroyed; its listener leaves the server stream.
  function Erase(s: State, key: Key): State
    requires key in s.store
  {
    var e := s.store[key].stream;
    var s1 := s.(store := s.store - {key});
    if e.upstream.Some? && e.upstream.value < |s.streams| then
      var st := e.upstream.value;
      s1.(streams := s.streams[st := s.streams[st].(listeners := Without(s.streams[st].listeners, e.id))])
    else s1
  }

  predicate InError(s: State, e: GwStream) {
    && e.upstream.Some?
    && e.upstream.value < |s.streams|
    && s.streams[e.upstream.value].link == LinkError
  }

  function StreamState(s: State, key: Key): State {
    if key in s.store && InError(s, s.store[key].stream) then Erase(s, key) else s
  }

  /* ---- GwStream ---- */

  // The result handler of a get-action: only a GwStream that still exists is tied.
  function Tie(s: State, g: SessionId, st: StreamRef): State {
    if Live(s, g) && st < |s.streams| then
      var key := s.sessions[g].key;
      var e := s.store[key];
      s.(store := s.store[key := e.(stream := e.stream.(upstream := Some(st)))],
         streams := s.streams[st := s.streams[st].(listeners := s.streams[st].listeners + [g])],
         sessions := s.sessions[g := s.sessions[g].(upstream := Some(st))])
    else s
  }

  function DropAction(s: State, g: SessionId): State {
    s.(actions := s.actions - {g})
  }

  // An action that reports its result runs the handler and is then destroyed.
  function Report(s: State, g: SessionId, st: StreamRef): State {
    DropAction(Tie(s, g, st), g)
  }

  // A tied buffer passes its oldest item on.
  function Drain(s: State, key: Key): State {
    if key in s.store && s.store[key].stream.upstream.Some? && s.store[key].stream.buffer != []
       && s.store[key].stream.upstream.value < |s.streams|
    then
      var e := s.store[key];
      var st := e.stream.upstream.value;
      var item := Tagged(e.stream.id, e.stream.buffer[0]);
      s.(store := s.store[key := e.(stream := e.stream.(buffer := e.stream.buffer[1..]))],
         streams := s.streams[st := s.streams[st].(received := s.streams[st].received + [item])])
    else s
  }

  // The server stream's own buffer passes its oldest item to the channel.
  function Send(s: State, st: StreamRef): State {
    if st < |s.streams| && s.streams[st].sent < |s.streams[st].received| then
      s.(streams := s.streams[st := s.streams[st].(sent := s.streams[st].sent + 1)])
    else s
  }

  /* ---- RequestServerStreamGetAction ---- */

  // The stream is made on the server and offered to the cache.
  function Resolve(s: State, g: SessionId, id: ServerId, server: ServerRef): State {
    var (s1, st) := MakeStream(s, server);
    AddAction(CacheStream(s1, id, st), g, Request(id, Result, true, Some(st)))
  }

  function UpdateAction(s: State, g: SessionId): State {
    if g !in s.actions then s
    else
      match s.actions[g]
      case Existing(st) => Report(s, g, st)
      case Request(id, state, changed, found) =>
        if !changed then s
        else
          match state
          case CheckServerExists =>
            if id in s.aether then Resolve(s, g, id, s.aether[id])
            else AddAction(s, g, Request(id, RequestServer, true, None))
          case RequestServer => AddAction(s, g, Request(id, RequestServer, false, found))
          case Result => if found.Some? then Report(s, g, found.value) else DropAction(s, g)
          case Error => DropAction(s, g)
  }

  function Answer(s: State, g: SessionId, servers: seq<ServerDescriptor>): State {
    if g in s.actions && s.actions[g].Waiting() && servers != [] then
      var (s1, server) := BuildServer(s, servers[0].serverId, Endpoints(servers[0].ips));
      Resolve(s1, g, s.actions[g].id, server)
    else s
  }

  function Refuse(s: State, g: SessionId): State {
    if g in s.actions && s.actions[g].Waiting() then
      AddAction(s, g, Request(s.actions[g].id, Error, true, None))
    else s
  }

  /* ---- Events of a server stream ---- */

  function NotifyAll(s: State, listeners: seq<SessionId>): State
    decreases |listeners|
  {
    if listeners == [] then s
    else if listeners[0] < |s.sessions| then
      NotifyAll(StreamState(s, s.sessions[listeners[0]].key), listeners[1..])
    else NotifyAll(s, listeners[1..])
  }

  function SetLink(s: State, st: StreamRef, link: LinkState): State {
    if st < |s.streams| then
      NotifyAll(s.(streams := s.streams[st := s.streams[st].(link := link)]), s.streams[st].listeners)
    else s
  }

  function DeliverAll(s: State, listeners: seq<SessionId>, data: DataBuffer, now: TimePoint): State
    decreases |listeners|
  {
    if listeners == [] then s
    else if listeners[0] < |s.sessions| then
      DeliverAll(OutData(s, s.sessions[listeners[0]].key, data, now), listeners[1..], data, now)
    else DeliverAll(s, listeners[1..], data, now)
  }

  function Reply(s: State, st: StreamRef, data: DataBuffer, now: TimePoint): State {
    if st < |s.streams| then DeliverAll(s, s.streams[st].listeners, data, now) else s
  }

  /* ---- Runs ---- */

  datatype Event =
    | Packet(device: DeviceId, call: GatewayCall, now: TimePoint)
    | Updated(session: SessionId)
    | Answered(session: SessionId, servers: seq<ServerDescriptor>)
    | Refused(session: SessionId)
    | Drained(key: Key)
    | Sent(stream: StreamRef)
    | Replied(stream: StreamRef, data: DataBuffer, now: TimePoint)
    | LinkChanged(stream: StreamRef, link: LinkState)
    | StreamUpdated(key: Key)
    | ServerLearned(server: Server)

  function Input(h: EndpointsHash, s: State, device: DeviceId, call: GatewayCall, now: TimePoint): State {
    var key := MakeKey(h, device, call.client, call.Wanted());
    Write(OpenStream(s, key, call.Wanted(), now), key, Item(call.Wanted(), call.data))
  }

  // Other parts of Aether may learn of a server; its table is insert-only.
  function Learn(s: State, server: Server): State {
    if server.id in s.aether then s
    else s.(servers := s.servers + [server], aether := s.aether[server.id := |s.servers|])
  }

  /** One event; an event whose subject does not exist changes nothing. */
  function Step(h: EndpointsHash, s: State, e: Event): State {
    match e
    case Packet(device, call, now) => Input(h, s, device, call, now)
    case Updated(g) => UpdateAction(s, g)
    case Answered(g, servers) => Answer(s, g, servers)
    case Refused(g) => Refuse(s, g)
    case Drained(key) => Drain(s, key)
    case Sent(st) => Send(s, st)
    case Replied(st, data, now) => Reply(s, st, data, now)
    case LinkChanged(st, link) => SetLink(s, st, link)
    case StreamUpdated(key) => StreamState(s, key)
    case ServerLearned(server) => Learn(s, server)
  }

  function Run(h: EndpointsHash, s: State, events: seq<Event>): State
    decreases |events|
  {
    if events == [] then s else Run(h, Step(h, s, events[0]), events[1..])
  }
}
