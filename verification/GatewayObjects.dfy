/**
 The gateway's objects, changed in place. Each method is proved to do to the
 gateway what the state machine's function of the same name does.

 A GwStream is owned by one entry of the table only, so the entry holds it by
 value. Server streams and servers are shared: they live in tables of the
 gateway, and a handle into the table is the pointer to them.
 */
module GatewayObjects {
  import opened Wire
  import opened Flatten
  import Model = GatewayModel
  import opened GatewayModel

  class LocalPort {
    var gateway: Gateway?
    var streamStore: map<Key, StreamStore>

    constructor ()
      ensures gateway == null && streamStore == map[]
    {
      gateway, streamStore := null, map[];
    }

    ghost predicate Ready()
      reads `gateway, (if gateway == null then {} else {gateway.port})`gateway
      reads (if gateway == null then {} else {gateway.manager})`gateway
    {
      gateway != null && gateway.port == this && gateway.Valid()
    }

    // A packet from a device opens its session if need be, and joins the session's buffer.
    method Input(h: EndpointsHash, device: DeviceId, call: GatewayCall, now: TimePoint)
      requires Ready()
      modifies this`streamStore, gateway, gateway.manager`streamCache
      ensures Ready() && gateway == old(gateway)
      ensures gateway.View() == Model.Input(h, old(gateway.View()), device, call, now)
    {
      var server := call.Wanted();
      var key := MakeKey(h, device, call.client, server);
      OpenStream(key, server, now);
      Write(key, Item(server, call.data));
    }

    method OpenStream(key: Key, server: ServeKind, now: TimePoint)
      requires Ready()
      modifies this`streamStore, gateway, gateway.manager`streamCache
      ensures Ready() && gateway == old(gateway) && key in streamStore
      ensures gateway.View() == Model.OpenStream(old(gateway.View()), key, server, now)
    {
      if key !in streamStore {
        var action := gateway.manager.GetStream(server);
        var g := |gateway.sessions|;
        gateway.actions := gateway.actions[g := action];
        gateway.sessions := gateway.sessions + [Session(key, server, [], None)];
        streamStore := streamStore[key := StreamStore(now, server, GwStream(g, None, []))];
      }
      streamStore := streamStore[key := streamStore[key].(lastUsed := now)];
    }

    method Write(key: Key, item: Item)
      requires Ready() && key in streamStore
      modifies this`streamStore, gateway`sessions
      ensures Ready() && gateway == old(gateway)
      ensures gateway.View() == Model.Write(old(gateway.View()), key, item)
    {
      var stream := streamStore[key].stream;
      if stream.id < |gateway.sessions| {
        streamStore := streamStore[key := streamStore[key].(stream := stream.(buffer := stream.buffer + [item]))];
        var session := gateway.sessions[stream.id];
        gateway.sessions := gateway.sessions[stream.id := session.(written := session.written + [item])];
      }
    }

    method OutData(key: Key, data: DataBuffer, now: TimePoint)
      requires Ready()
      modifies this`streamStore, gateway`outputs
      ensures Ready() && gateway == old(gateway)
      ensures gateway.View() == Model.OutData(old(gateway.View()), key, data, now)
    {
      if key !in streamStore {
        return;
      }
      streamStore := streamStore[key := streamStore[key].(lastUsed := now)];
      gateway.outputs := gateway.outputs + [Output(key.device, FromServer(key.client, data), streamStore[key].stream.id)];
    }

    method StreamState(key: Key)
      requires Ready()
      modifies this`streamStore, gateway`streams
      ensures Ready() && gateway == old(gateway)
      ensures gateway.View() == Model.StreamState(old(gateway.View()), key)
    {
      if key !in streamStore {
        return;
      }
      var stream := streamStore[key].stream;
      if stream.upstream.Some? && stream.upstream.value < |gateway.streams| {
        var st := stream.upstream.value;
        if gateway.streams[st].link == LinkError {
          streamStore := streamStore - {key};
          var left := Without(gateway.streams[st].listeners, stream.id);
          gateway.streams := gateway.streams[st := gateway.streams[st].(listeners := left)];
        }
      }
    }
  }

  class ServerStreamManager {
    var gateway: Gateway?
    var streamCache: map<ServerId, StreamRef>

    constructor ()
      ensures gateway == null && streamCache == map[]
    {
      gateway, streamCache := null, map[];
    }

    ghost predicate Ready()
      reads `gateway, (if gateway == null then {} else {gateway.port})`gateway
      reads (if gateway == null then {} else {gateway.manager})`gateway
    {
      gateway != null && gateway.manager == this && gateway.Valid()
    }

    // Expired entries are erased while the cache is walked through.
    method OpenCache()
      requires Ready()
      modifies this`streamCache
      ensures Ready() && gateway == old(gateway)
      ensures gateway.View() == Model.OpenCache(old(gateway.View()))
    {
      ghost var s := gateway.View();
      var unseen := streamCache.Keys;
      while unseen != {}
        invariant unseen <= s.cache.Keys
        invariant forall id :: id in streamCache <==> id in s.cache && (id in unseen || Alive(s, s.cache[id]))
        invariant forall id :: id in streamCache ==> streamCache[id] == s.cache[id]
      {
        var id :| id in unseen;
        if gateway.Expired(streamCache[id]) {
          streamCache := streamCache - {id};
        }
        unseen := unseen - {id};
      }
      assert streamCache == Model.LiveView(s);
    }

    method CacheStream(id: ServerId, st: StreamRef)
      requires Ready()
      modifies this`streamCache, gateway`cacheCalls
      ensures Ready() && gateway == old(gateway)
      ensures gateway.View() == Model.CacheStream(old(gateway.View()), id, st)
    {
      gateway.cacheCalls := gateway.cacheCalls + [CacheCall(id, st)];
      if id !in streamCache {
        streamCache := streamCache[id := st];
      }
    }

    method BuildServer(id: ServerId, endpoints: ServerEndpoints) returns (server: ServerRef)
      requires Ready()
      modifies gateway`servers, gateway`cloud, gateway`aether
      ensures Ready()
      ensures (gateway.View(), server) == Model.BuildServer(old(gateway.View()), id, endpoints)
    {
      if id != 0 && id in gateway.aether {
        return gateway.aether[id];
      }
      server := |gateway.servers|;
      gateway.servers := gateway.servers + [Server(id, endpoints)];
      gateway.cloud := gateway.cloud + [server];
      if id != 0 {
        gateway.aether := gateway.aether[id := server];
      }
    }

    method MakeStream(server: ServerRef) returns (st: StreamRef)
      requires Ready()
      modifies gateway`streams
      ensures Ready()
      ensures (gateway.View(), st) == Model.MakeStream(old(gateway.View()), server)
    {
      st := |gateway.streams|;
      gateway.streams := gateway.streams + [ServerStream(server, [], 0, Unlinked, [])];
    }

    method GetStream(server: ServeKind) returns (action: GetAction)
      requires Ready()
      modifies this`streamCache, gateway`servers, gateway`cloud, gateway`aether, gateway`streams
      ensures Ready() && gateway == old(gateway)
      ensures (gateway.View(), action) == Model.GetStream(old(gateway.View()), server)
    {
      match server
      case ById(id) =>
        OpenCache();
        action := if id in streamCache then Existing(streamCache[id]) else Request(id, CheckServerExists, true, None);
      case ByEndpoints(endpoints) =>
        var ref := BuildServer(0, endpoints);
        var st := MakeStream(ref);
        action := Existing(st);
    }

    // A stream is made on the server, kept by the action and offered to the cache.
    method Resolve(g: SessionId, id: ServerId, server: ServerRef)
      requires Ready()
      modifies this`streamCache, gateway`cacheCalls, gateway`streams, gateway`actions
      ensures Ready() && gateway == old(gateway)
      ensures gateway.View() == Model.Resolve(old(gateway.View()), g, id, server)
    {
      var st := MakeStream(server);
      CacheStream(id, st);
      gateway.actions := gateway.actions[g := Request(id, Result, true, Some(st))];
    }

    method OnServers(g: SessionId, servers: seq<ServerDescriptor>)
      requires Ready() && g in gateway.actions && gateway.actions[g].Waiting() && servers != []
      modifies this`streamCache, gateway`cacheCalls, gateway`servers, gateway`cloud, gateway`aether, gateway`streams
      modifies gateway`actions
      ensures Ready() && gateway == old(gateway)
      ensures gateway.View() == Model.Answer(old(gateway.View()), g, servers)
    {
      var endpoints := CollectEndpoints(servers[0].ips);
      var server := BuildServer(servers[0].serverId, endpoints);
      Resolve(g, gateway.actions[g].id, server);
    }

    method OnError(g: SessionId)
      requires Ready() && g in gateway.actions && gateway.actions[g].Waiting()
      modifies gateway`actions
      ensures Ready()
      ensures gateway.View() == Model.Refuse(old(gateway.View()), g)
    {
      gateway.actions := gateway.actions[g := Request(gateway.actions[g].id, Error, true, None)];
    }

    // The action processor updates a get-action; one that reports is destroyed.
    method UpdateAction(g: SessionId)
      requires Ready() && g in gateway.actions
      modifies this`streamCache, gateway, gateway.port`streamStore
      ensures Ready() && gateway == old(gateway)
      ensures gateway.View() == Model.UpdateAction(old(gateway.View()), g)
    {
      match gateway.actions[g]
      case Existing(st) =>
        gateway.OnResult(g, st);
        gateway.actions := gateway.actions - {g};
      case Request(id, state, changed, found) =>
        if !changed {
          return;
        }
        match state
        case CheckServerExists =>
          if id in gateway.aether {
            Resolve(g, id, gateway.aether[id]);
          } else {
            gateway.actions := gateway.actions[g := Request(id, RequestServer, true, None)];
          }
        case RequestServer =>
          gateway.actions := gateway.actions[g := Request(id, RequestServer, false, found)];
        case Result =>
          if found.Some? {
            gateway.OnResult(g, found.value);
          }
          gateway.actions := gateway.actions - {g};
        case Error =>
          gateway.actions := gateway.actions - {g};
    }
  }

  class Gateway {
    const port: LocalPort
    const manager: ServerStreamManager
    var servers: seq<Server>
    var aether: map<ServerId, ServerRef>
    var cloud: seq<ServerRef>
    var streams: seq<ServerStream>
    var actions: map<SessionId, GetAction>
    var sessions: seq<Session>
    var outputs: seq<Output>
    ghost var cacheCalls: seq<CacheCall>

    constructor ()
      ensures Valid() && View() == EMPTY
    {
      port := new LocalPort();
      manager := new ServerStreamManager();
      servers, aether, cloud, streams, actions, sessions, outputs := [], map[], [], [], map[], [], [];
      cacheCalls := [];
      new;
      port.gateway := this;
      manager.gateway := this;
    }

    ghost predicate Valid()
      reads port`gateway, manager`gateway
    {
      port.gateway == this && manager.gateway == this
    }

    ghost function View(): State
      reads this, port`streamStore, manager`streamCache
    {
      State(port.streamStore, manager.streamCache, streams, servers, aether, cloud, actions, sessions, outputs, cacheCalls)
    }

    // No entry of the table and no pending action owns the stream.
    predicate Expired(st: StreamRef)
      reads this, port`streamStore, manager`streamCache
      ensures Expired(st) <==> !Alive(View(), st)
    {
      && (forall k :: k in port.streamStore ==> port.streamStore[k].stream.upstream != Some(st))
      && (forall g :: g in actions ==> actions[g].Held() != Some(st))
    }

    // The result handler of a session's get-action, if the session's GwStream still exists.
    method OnResult(g: SessionId, st: StreamRef)
      requires Valid()
      modifies `streams, `sessions, port`streamStore
      ensures View() == Model.Tie(old(View()), g, st)
    {
      if g < |sessions| && st < |streams| {
        var key := sessions[g].key;
        if key in port.streamStore && port.streamStore[key].stream.id == g {
          var entry := port.streamStore[key];
          port.streamStore := port.streamStore[key := entry.(stream := entry.stream.(upstream := Some(st)))];
          streams := streams[st := streams[st].(listeners := streams[st].listeners + [g])];
          sessions := sessions[g := sessions[g].(upstream := Some(st))];
        }
      }
    }

    method Drain(key: Key)
      requires Valid()
      modifies `streams, port`streamStore
      ensures View() == Model.Drain(old(View()), key)
    {
      if key in port.streamStore {
        var entry := port.streamStore[key];
        if entry.stream.upstream.Some? && entry.stream.buffer != [] && entry.stream.upstream.value < |streams| {
          var st := entry.stream.upstream.value;
          var item := Tagged(entry.stream.id, entry.stream.buffer[0]);
          streams := streams[st := streams[st].(received := streams[st].received + [item])];
          port.streamStore := port.streamStore[key := entry.(stream := entry.stream.(buffer := entry.stream.buffer[1..]))];
        }
      }
    }

    method Send(st: StreamRef)
      requires Valid() && st < |streams|
      modifies `streams
      ensures View() == Model.Send(old(View()), st)
    {
      if streams[st].sent < |streams[st].received| {
        streams := streams[st := streams[st].(sent := streams[st].sent + 1)];
      }
    }

    // A datum from the server is handed to the handlers of all listeners, in order.
    method Reply(st: StreamRef, data: DataBuffer, now: TimePoint)
      requires Valid() && st < |streams|
      modifies port`streamStore, `outputs
      ensures View() == Model.Reply(old(View()), st, data, now)
    {
      var listeners := streams[st].listeners;
      for i := 0 to |listeners|
        invariant Model.DeliverAll(View(), listeners[i..], data, now) == Model.DeliverAll(old(View()), listeners, data, now)
      {
        assert listeners[i..][1..] == listeners[i + 1..];
        if listeners[i] < |sessions| {
          port.OutData(sessions[listeners[i]].key, data, now);
        }
      }
    }

    // A link change is handed to the handlers of all that listened when it came.
    method SetLink(st: StreamRef, link: LinkState)
      requires Valid() && st < |streams|
      modifies port`streamStore, `streams
      ensures View() == Model.SetLink(old(View()), st, link)
    {
      var listeners := streams[st].listeners;
      streams := streams[st := streams[st].(link := link)];
      ghost var s := View();
      for i := 0 to |listeners|
        invariant Model.NotifyAll(View(), listeners[i..]) == Model.NotifyAll(s, listeners)
      {
        assert listeners[i..][1..] == listeners[i + 1..];
        if listeners[i] < |sessions| {
          port.StreamState(sessions[listeners[i]].key);
        }
      }
    }

    method Learn(server: Server)
      requires Valid()
      modifies `servers, `aether
      ensures View() == Model.Learn(old(View()), server)
    {
      if server.id !in aether {
        aether := aether[server.id := |servers|];
        servers := servers + [server];
      }
    }

    method Handle(h: EndpointsHash, e: Event)
      requires Valid()
      modifies this, port`streamStore, manager`streamCache
      ensures Valid()
      ensures View() == Model.Step(h, old(View()), e)
    {
      match e
      case Packet(device, call, now) => port.Input(h, device, call, now);
      case Updated(g) =>
        if g in actions {
          manager.UpdateAction(g);
        }
      case Answered(g, found) =>
        if g in actions && actions[g].Waiting() && found != [] {
          manager.OnServers(g, found);
        }
      case Refused(g) =>
        if g in actions && actions[g].Waiting() {
          manager.OnError(g);
        }
      case Drained(key) => Drain(key);
      case Sent(st) =>
        if st < |streams| {
          Send(st);
        }
      case Replied(st, data, now) =>
        if st < |streams| {
          Reply(st, data, now);
        }
      case LinkChanged(st, link) =>
        if st < |streams| {
          SetLink(st, link);
        }
      case StreamUpdated(key) => port.StreamState(key);
      case ServerLearned(server) => Learn(server);
    }

    /** Handling a list of events is a run: what is proved of runs holds of these objects. */
    method HandleAll(h: EndpointsHash, events: seq<Event>)
      requires Valid()
      modifies this, port`streamStore, manager`streamCache
      ensures Valid()
      ensures View() == Model.Run(h, old(View()), events)
    {
      for i := 0 to |events|
        invariant Valid()
        invariant Model.Run(h, View(), events[i..]) == Model.Run(h, old(View()), events)
      {
        assert events[i..][1..] == events[i + 1..];
        Handle(h, events[i]);
      }
    }
  }
}
