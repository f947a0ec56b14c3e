/** What becomes of a packet whose server has the identity of another server. */
module Collisions {
  import opened Wire
  import opened GatewayModel
  import opened GatewayInvariant
  import opened GatewaySteps
  import opened Entries
  import opened RightServer

  /** The 32-bit number of a call's server: its id, or the low half of the hash of all its endpoints. */
  function NumberOf(h: EndpointsHash, call: GatewayCall): nat {
    match call
    case ToServerId(_, id, _) => id
    case ToServer(_, endpoints, _) => h(endpoints) % 0x1_0000_0000
  }

  // What a call is for a session: the server as the client named it, and the datum.
  function ItemOf(call: GatewayCall): Item {
    match call
    case ToServerId(_, id, data) => Item(ById(id), data)
    case ToServer(_, endpoints, data) => Item(ByEndpoints(endpoints), data)
  }

  function WrittenBefore(s: State, g: SessionId): seq<Item> {
    if g < |s.sessions| then s.sessions[g].written else []
  }

  // The item was written to session g, old or new, and nothing to any other.
  ghost predicate WrittenTo(s: State, t: State, g: SessionId, item: Item) {
    && g < |t.sessions|
    && (forall x :: 0 <= x < |t.sessions| ==>
          t.sessions[x].written == WrittenBefore(s, x) + (if x == g then [item] else []))
  }

  lemma {:induction false} PacketWrites(h: EndpointsHash, s: State, device: DeviceId, call: GatewayCall, now: TimePoint)
    returns (g: SessionId)
    requires StoreOk(s.store, s.sessions)
    ensures var t := Step(h, s, Packet(device, call, now)); var key := MakeKey(h, device, call.client, call.Wanted());
      && WrittenTo(s, t, g, ItemOf(call))
      && g == (if key in s.store then s.store[key].stream.id else |s.sessions|)
      && key in t.store && t.store[key].stream.id == g
  {
    var want := call.Wanted();
    var key := MakeKey(h, device, call.client, want);
    var s1 := OpenStream(s, key, want, now);
    GetStreamFrame(s, want);
    assert key in s.store ==> EntryOk(key, s.store[key], s.sessions);
    g := s1.store[key].stream.id;
    WriteWrites(s1, key, ItemOf(call));
    assert forall x :: 0 <= x < |s1.sessions| ==> s1.sessions[x].written == WrittenBefore(s, x);
  }

  lemma {:induction false} WriteWrites(s: State, key: Key, item: Item)
    requires key in s.store && s.store[key].stream.id < |s.sessions|
    ensures var t := Write(s, key, item); var g := s.store[key].stream.id;
      && WrittenTo(s, t, g, item) && |t.sessions| == |s.sessions|
      && key in t.store && t.store[key].stream.id == g
  {
    var t := Write(s, key, item);
    forall x | 0 <= x < |t.sessions|
      ensures t.sessions[x].written == s.sessions[x].written + (if x == s.store[key].stream.id then [item] else [])
    {
      assert s.sessions[x].written + [] == s.sessions[x].written;
    }
  }

  /**
   In every reachable state, of two packets the second is written to the session
   of the first if and only if they come from the same device and client and their
   servers have the same number; and each is written to exactly one session.
   */
  lemma {:induction false} PacketsShare(h: EndpointsHash, events: seq<Event>, device: DeviceId, first: GatewayCall,
                                        now: TimePoint, device': DeviceId, second: GatewayCall, now': TimePoint)
    returns (g: SessionId, g': SessionId)
    ensures var s := Run(h, EMPTY, events);
      var t := Step(h, s, Packet(device, first, now)); var u := Step(h, t, Packet(device', second, now'));
      && WrittenTo(s, t, g, ItemOf(first)) && WrittenTo(t, u, g', ItemOf(second))
      && (g == g' <==> device == device' && first.client == second.client && NumberOf(h, first) == NumberOf(h, second))
  {
    var s := Run(h, EMPTY, events);
    Reachable(h, events);
    g := PacketWrites(h, s, device, first, now);
    var t := Step(h, s, Packet(device, first, now));
    StepKeeps(h, s, Packet(device, first, now));
    g' := PacketWrites(h, t, device', second, now');
    SessionIsUnderKey(h, t, g, device, first, device', second);
  }

  // A session found under one key is not found under another.
  lemma {:induction false} SessionIsUnderKey(h: EndpointsHash, t: State, g: SessionId, device: DeviceId,
                                             first: GatewayCall, device': DeviceId, second: GatewayCall)
    requires StoreOk(t.store, t.sessions)
    requires var key := MakeKey(h, device, first.client, first.Wanted()); key in t.store && t.store[key].stream.id == g
    ensures var key' := MakeKey(h, device', second.client, second.Wanted());
      g == (if key' in t.store then t.store[key'].stream.id else |t.sessions|)
      <==> device == device' && first.client == second.client && NumberOf(h, first) == NumberOf(h, second)
  {
    var key := MakeKey(h, device, first.client, first.Wanted());
    var key' := MakeKey(h, device', second.client, second.Wanted());
    assert EntryOk(key, t.store[key], t.sessions);
    assert key' in t.store ==> EntryOk(key', t.store[key'], t.sessions);
    KeysEqual(h, device, first, device', second);
  }

  lemma {:induction false} KeysEqual(h: EndpointsHash, device: DeviceId, first: GatewayCall, device': DeviceId,
                                     second: GatewayCall)
    ensures MakeKey(h, device, first.client, first.Wanted()) == MakeKey(h, device', second.client, second.Wanted())
            <==> device == device' && first.client == second.client && NumberOf(h, first) == NumberOf(h, second)
  {
  }

  /**
   Two packets of one client that find no session share a new one if and only if
   their servers have the same number: then both are buffered for the server of
   the first.
   */
  lemma {:induction false} CollisionShares(h: EndpointsHash, s: State, device: DeviceId, first: GatewayCall,
                                           second: GatewayCall, now: TimePoint)
    requires Inv(h, s) && first.client == second.client
    requires MakeKey(h, device, first.client, first.Wanted()) !in s.store
    requires MakeKey(h, device, second.client, second.Wanted()) !in s.store
    ensures var t := Step(h, s, Packet(device, first, now));
      var u := Step(h, t, Packet(device, second, now));
      var key := MakeKey(h, device, first.client, first.Wanted());
      && key in u.store && u.store[key].server == first.Wanted()
      && (u.store[key].stream.buffer == [Item(first.Wanted(), first.data), Item(second.Wanted(), second.data)]
          <==> NumberOf(h, first) == NumberOf(h, second))
  {
    var key := MakeKey(h, device, first.client, first.Wanted());
    var key' := MakeKey(h, device, second.client, second.Wanted());
    var t := Step(h, s, Packet(device, first, now));
    PacketOpens(h, s, device, first, now);
    if key' == key {
      PacketJoins(h, t, device, second, now);
    } else {
      PacketOpens(h, t, device, second, now);
    }
  }

  lemma {:induction false} PacketOpens(h: EndpointsHash, s: State, device: DeviceId, call: GatewayCall, now: TimePoint)
    requires MakeKey(h, device, call.client, call.Wanted()) !in s.store
    ensures var t := Step(h, s, Packet(device, call, now)); var key := MakeKey(h, device, call.client, call.Wanted());
      && t.store == s.store[key := StreamStore(now, call.Wanted(), GwStream(|s.sessions|, None, [ItemOf(call)]))]
      && |t.sessions| == |s.sessions| + 1
  {
    GetStreamFrame(s, call.Wanted());
    assert [] + [ItemOf(call)] == [ItemOf(call)];
  }

  lemma {:induction false} PacketJoins(h: EndpointsHash, s: State, device: DeviceId, call: GatewayCall, now: TimePoint)
    requires var key := MakeKey(h, device, call.client, call.Wanted());
      key in s.store && s.store[key].stream.id < |s.sessions|
    ensures var t := Step(h, s, Packet(device, call, now)); var key := MakeKey(h, device, call.client, call.Wanted());
      && key in t.store && t.store[key].server == s.store[key].server
      && t.store[key].stream.buffer == s.store[key].stream.buffer + [ItemOf(call)]
  {
  }

  /* ---- A whole run ---- */

  // A client asks for one server and, once it is connected, for another.
  function TwoRequests(h: EndpointsHash, device: DeviceId, first: GatewayCall, second: GatewayCall,
                       server: Server): seq<Event>
  {
    var key := MakeKey(h, device, first.client, first.Wanted());
    OneRequest(device, first, server) + [Packet(device, second, 0), Drained(key), Drained(key)]
  }

  function OneRequest(device: DeviceId, call: GatewayCall, server: Server): seq<Event> {
    [Packet(device, call, 0), ServerLearned(server), Updated(0), Updated(0)]
  }

  // Where the first request leads.
  function Target(call: GatewayCall, server: Server): Server {
    match call
    case ToServerId(_, _, _) => server
    case ToServer(_, eps, _) => Server(0, eps)
  }

  // Session 0 is stored under the key and tied to stream 0, which leads to the server.
  ghost predicate Connected(s: State, key: Key, server: Server, buffer: seq<Item>, received: seq<Tagged>) {
    && key in s.store && s.store[key].stream == GwStream(0, Some(0), buffer)
    && 0 < |s.sessions|
    && 0 < |s.streams| && s.streams[0].received == received
    && s.streams[0].server < |s.servers| && ServerOf(s, 0) == server
  }

  lemma {:induction false} Asked(h: EndpointsHash, device: DeviceId, call: GatewayCall)
    ensures var s := Step(h, EMPTY, Packet(device, call, 0)); var key := MakeKey(h, device, call.client, call.Wanted());
      && s.store == map[key := StreamStore(0, call.Wanted(), GwStream(0, None, [ItemOf(call)]))]
      && s.sessions == [Session(key, call.Wanted(), [ItemOf(call)], None)]
      && s.cache == map[] && s.aether == map[]
      && (match call
          case ToServerId(_, id, _) =>
            s.actions == map[0 := Request(id, CheckServerExists, true, None)] && s.streams == [] && s.servers == []
          case ToServer(_, eps, _) =>
            && s.actions == map[0 := Existing(0)]
            && s.streams == [ServerStream(0, [], 0, Unlinked, [])] && s.servers == [Server(0, eps)])
  {
    assert LiveView(EMPTY) == map[];
    var want := call.Wanted();
    var unwritten := OpenStream(EMPTY, MakeKey(h, device, call.client, want), want, 0);
    assert unwritten.sessions == [Session(MakeKey(h, device, call.client, want), want, [], None)];
    assert [] + [ItemOf(call)] == [ItemOf(call)];
  }

  lemma {:induction false} Connects(h: EndpointsHash, device: DeviceId, call: GatewayCall, server: Server)
    requires call.ToServerId? ==> server.id == call.serverId
    ensures Connected(Run(h, EMPTY, OneRequest(device, call, server)),
                      MakeKey(h, device, call.client, call.Wanted()), Target(call, server), [ItemOf(call)], [])
  {
    RunFour(h, EMPTY, OneRequest(device, call, server));
    Asked(h, device, call);
    var s1 := Step(h, EMPTY, Packet(device, call, 0));
    ConnectsFrom(h, s1, call, server, MakeKey(h, device, call.client, call.Wanted()));
  }

  lemma {:induction false} ConnectsFrom(h: EndpointsHash, s1: State, call: GatewayCall, server: Server, key: Key)
    requires call.ToServerId? ==> server.id == call.serverId
    requires s1.store == map[key := StreamStore(0, call.Wanted(), GwStream(0, None, [ItemOf(call)]))]
    requires s1.sessions == [Session(key, call.Wanted(), [ItemOf(call)], None)]
    requires s1.cache == map[] && s1.aether == map[]
    requires match call
             case ToServerId(_, id, _) =>
               s1.actions == map[0 := Request(id, CheckServerExists, true, None)] && s1.streams == [] && s1.servers == []
             case ToServer(_, eps, _) =>
               && s1.actions == map[0 := Existing(0)]
               && s1.streams == [ServerStream(0, [], 0, Unlinked, [])] && s1.servers == [Server(0, eps)]
    ensures Connected(UpdateAction(UpdateAction(Learn(s1, server), 0), 0), key, Target(call, server), [ItemOf(call)], [])
  {
    var s2 := Learn(s1, server);
    var s3 := UpdateAction(s2, 0);
    assert s2 == s1.(servers := s1.servers + [server], aether := map[server.id := |s1.servers|]);
    match call
    case ToServerId(_, id, _) =>
      assert s3.actions == map[0 := Request(id, Result, true, Some(0))];
      assert s3.streams == [ServerStream(0, [], 0, Unlinked, [])] && s3.servers == [server];
      assert Live(s3, 0);
    case ToServer(_, eps, _) =>
      assert Live(s2, 0);
      assert s3.actions == map[];
  }

  lemma {:induction false} AsksAgain(h: EndpointsHash, s: State, device: DeviceId, call: GatewayCall, key: Key,
                                     server: Server, item: Item)
    requires Connected(s, key, server, [item], [])
    ensures var t := Step(h, s, Packet(device, call, 0));
      Connected(t, key, server,
                if MakeKey(h, device, call.client, call.Wanted()) == key then [item, ItemOf(call)] else [item], [])
  {
    var want := call.Wanted();
    var key' := MakeKey(h, device, call.client, want);
    StaysConnected(s, key', want, key, server, [item]);
    WritesConnected(OpenStream(s, key', want, 0), key', ItemOf(call), key, server, [item]);
  }

  lemma {:induction false} StaysConnected(s: State, key': Key, want: ServeKind, key: Key, server: Server,
                                          buffer: seq<Item>)
    requires Connected(s, key, server, buffer, [])
    ensures Connected(OpenStream(s, key', want, 0), key, server, buffer, [])
  {
    GetStreamFrame(s, want);
  }

  lemma {:induction false} WritesConnected(s: State, key': Key, item: Item, key: Key, server: Server, buffer: seq<Item>)
    requires Connected(s, key, server, buffer, [])
    ensures Connected(Write(s, key', item), key, server, if key' == key then buffer + [item] else buffer, [])
  {
  }

  lemma {:induction false} PassesOn(h: EndpointsHash, s: State, key: Key, server: Server, buffer: seq<Item>,
                                    received: seq<Tagged>)
    requires Connected(s, key, server, buffer, received)
    ensures var t := Step(h, s, Drained(key));
      if buffer == [] then t == s
      else Connected(t, key, server, buffer[1..], received + [Tagged(0, buffer[0])])
  {
  }

  /**
   Of two requests of one client the second is passed on to the server of the
   first if and only if their servers have the same identity.
   */
  lemma {:induction false} CollisionMisroutes(h: EndpointsHash, device: DeviceId, first: GatewayCall,
                                              second: GatewayCall, server: Server)
    requires first.client == second.client
    requires first.ToServerId? ==> server.id == first.serverId
    ensures var s := Run(h, EMPTY, TwoRequests(h, device, first, second, server));
      && 0 < |s.streams| && s.streams[0].server < |s.servers| && ServerOf(s, 0) == Target(first, server)
      && Names(first.Wanted(), ServerOf(s, 0))
      && s.streams[0].received ==
         (if NumberOf(h, first) == NumberOf(h, second)
          then [Tagged(0, ItemOf(first)), Tagged(0, ItemOf(second))]
          else [Tagged(0, ItemOf(first))])
  {
    var key := MakeKey(h, device, first.client, first.Wanted());
    var then' := [Packet(device, second, 0), Drained(key), Drained(key)];
    Connects(h, device, first, server);
    var s4 := Run(h, EMPTY, OneRequest(device, first, server));
    ThenPassesOn(h, s4, device, first, second, key, Target(first, server));
    RunThree(h, s4, then');
    RunBoth(h, EMPTY, OneRequest(device, first, server), then');
  }

  lemma {:induction false} ThenPassesOn(h: EndpointsHash, s4: State, device: DeviceId, first: GatewayCall,
                                        second: GatewayCall, key: Key, server: Server)
    requires Connected(s4, key, server, [ItemOf(first)], []) && first.client == second.client
    requires key == MakeKey(h, device, first.client, first.Wanted())
    ensures var s := Step(h, Step(h, Step(h, s4, Packet(device, second, 0)), Drained(key)), Drained(key));
      && 0 < |s.streams| && s.streams[0].server < |s.servers| && ServerOf(s, 0) == server
      && s.streams[0].received ==
         (if NumberOf(h, first) == NumberOf(h, second)
          then [Tagged(0, ItemOf(first)), Tagged(0, ItemOf(second))]
          else [Tagged(0, ItemOf(first))])
  {
    AsksAgain(h, s4, device, second, key, server, ItemOf(first));
    var s5 := Step(h, s4, Packet(device, second, 0));
    var both := NumberOf(h, first) == NumberOf(h, second);
    var buffer := if both then [ItemOf(first), ItemOf(second)] else [ItemOf(first)];
    assert Connected(s5, key, server, buffer, []);
    PassesOn(h, s5, key, server, buffer, []);
    assert [] + [Tagged(0, buffer[0])] == [Tagged(0, ItemOf(first))];
    PassesOn(h, Step(h, s5, Drained(key)), key, server, buffer[1..], [Tagged(0, ItemOf(first))]);
  }

  /**
   Every hash collides: in this run the stream to a server with an id and
   endpoints receives what was sent to the server without endpoints.
   */
  lemma {:induction false} EveryHashMisroutes(h: EndpointsHash)
    ensures var id: ServerId := h([]) % 0x1_0000_0000;
      var first, second := ToServerId(0, id, []), ToServer(0, [], []);
      var s := Run(h, EMPTY, TwoRequests(h, 1, first, second, Server(id, [Endpoint(0, 0, 0)])));
      && 0 < |s.streams| && s.streams[0].server < |s.servers| && |s.streams[0].received| == 2
      && s.streams[0].received[1].item.want == ByEndpoints([])
      && !Names(ByEndpoints([]), ServerOf(s, 0))
  {
    var id: ServerId := h([]) % 0x1_0000_0000;
    var first, second := ToServerId(0, id, []), ToServer(0, [], []);
    var server := Server(id, [Endpoint(0, 0, 0)]);
    CollisionMisroutes(h, 1, first, second, server);
  }
}
