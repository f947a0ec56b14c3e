/** The stream cache and Aether's server table agree. */
module Agreement {
  import opened Wire
  import opened Flatten
  import opened GatewayModel
  import opened GatewayInvariant
  import opened GatewaySteps
  import opened FanOut
  import opened Entries
  import opened RightServer

  /** A resolver asked for this id answers with it. */
  predicate AnswerCarries(s: State, e: Event, id: ServerId) {
    (e.Answered? && e.session in s.actions && s.actions[e.session].Waiting() && s.actions[e.session].id == id
     && e.servers != []) ==> e.servers[0].serverId == id
  }

  ghost predicate AnswersCarry(h: EndpointsHash, s: State, events: seq<Event>, id: ServerId)
    decreases |events|
  {
    events != [] ==> AnswerCarries(s, events[0], id) && AnswersCarry(h, Step(h, s, events[0]), events[1..], id)
  }

  // The stream cached for the id, if there is one, was built on the server Aether holds for it.
  ghost predicate Agrees(s: State, id: ServerId) {
    id in s.cache ==>
      && s.cache[id] < |s.streams|
      && id in s.aether && s.streams[s.cache[id]].server == s.aether[id]
  }

  lemma {:induction false} AgreementStays(s: State, t: State, id: ServerId)
    requires Agrees(s, id) && Extends(s, t)
    requires id in t.cache ==> id in s.cache && t.cache[id] == s.cache[id]
    ensures Agrees(t, id)
  {
  }

  lemma {:induction false} ResolveAgrees(s: State, g: SessionId, server: ServerRef, id: ServerId)
    requires Agrees(s, id) && g in s.actions && s.actions[g].Request?
    requires s.actions[g].id == id ==> id in s.aether && s.aether[id] == server
    ensures Agrees(Resolve(s, g, s.actions[g].id, server), id)
  {
    var (s1, st) := MakeStream(s, server);
    AgreementStays(s, s1, id);
    var s2 := CacheStream(s1, s.actions[g].id, st);
    assert Agrees(s2, id);
  }

  lemma {:induction false} UpdateAgrees(s: State, g: SessionId, id: ServerId)
    requires Agrees(s, id)
    ensures Agrees(UpdateAction(s, g), id)
  {
    if g in s.actions && s.actions[g].Unresolved() && s.actions[g].id in s.aether {
      ResolveAgrees(s, g, s.aether[s.actions[g].id], id);
    }
  }

  lemma {:induction false} AnswerAgrees(s: State, g: SessionId, servers: seq<ServerDescriptor>, id: ServerId)
    requires Agrees(s, id) && id != 0 && AnswerCarries(s, Answered(g, servers), id)
    ensures Agrees(Answer(s, g, servers), id)
  {
    if g in s.actions && s.actions[g].Waiting() && servers != [] {
      var (s1, server) := BuildServer(s, servers[0].serverId, Endpoints(servers[0].ips));
      AgreementStays(s, s1, id);
      ResolveAgrees(s1, g, server, id);
    }
  }

  lemma {:induction false} PacketAgrees(h: EndpointsHash, s: State, e: Event, id: ServerId)
    requires Agrees(s, id) && e.Packet?
    ensures Agrees(Step(h, s, e), id)
  {
    var want := e.call.Wanted();
    var key := MakeKey(h, e.device, e.call.client, want);
    GetStreamFrame(s, want);
    var s1 := OpenStream(s, key, want, e.now);
    assert Extends(s, s1);
    AgreementStays(s, s1, id);
    WriteFrame(s1, key, Item(want, e.call.data));
  }

  lemma {:induction false} StepAgrees(h: EndpointsHash, s: State, e: Event, id: ServerId)
    requires Inv(h, s) && Agrees(s, id) && id != 0 && AnswerCarries(s, e, id)
    ensures Agrees(Step(h, s, e), id)
  {
    match e
    case Packet(_, _, _) => PacketAgrees(h, s, e, id);
    case Updated(g) => UpdateAgrees(s, g, id);
    case Answered(g, servers) => AnswerAgrees(s, g, servers, id);
    case Replied(_, _, _) => StreamEventFrame(h, s, e);
    case LinkChanged(_, _) => StreamEventFrame(h, s, e);
    case _ => OtherFrame(h, s, e);
  }

  lemma {:induction false} RunAgrees(h: EndpointsHash, s: State, events: seq<Event>, id: ServerId)
    requires Inv(h, s) && Agrees(s, id) && id != 0 && AnswersCarry(h, s, events, id)
    ensures Agrees(Run(h, s, events), id)
    decreases |events|
  {
    if events != [] {
      StepKeeps(h, s, events[0]);
      StepAgrees(h, s, events[0], id);
      RunAgrees(h, Step(h, s, events[0]), events[1..], id);
    }
  }

  /**
   For every nonzero id whose resolver answers carry it, in every run, also when
   requests for it overlap: the stream cached for the id was built on the server
   Aether holds for the id.
   */
  lemma {:induction false} CacheAgreesWithAether(h: EndpointsHash, events: seq<Event>, id: ServerId)
    requires id != 0 && AnswersCarry(h, EMPTY, events, id)
    requires id in Run(h, EMPTY, events).cache
    ensures var s := Run(h, EMPTY, events);
      && s.cache[id] < |s.streams|
      && id in s.aether && s.streams[s.cache[id]].server == s.aether[id]
      && s.aether[id] < |s.servers| && s.servers[s.aether[id]].id == id
  {
    RunAgrees(h, EMPTY, events, id);
    Reachable(h, events);
  }

  // A device asks for server 7, and the resolver answers with server 8.
  const OTHER_ANSWER := [Packet(1, ToServerId(0, 7, []), 0), Updated(0), Updated(0),
                         Answered(0, [ServerDescriptor(8, [])])]

  /** This happens: here a stream to server 8 is cached for server 7. */
  lemma {:induction false} OtherAnswerDisagrees(h: EndpointsHash)
    ensures var s := Run(h, EMPTY, OTHER_ANSWER);
      && 7 in s.cache && s.cache[7] < |s.streams| && 7 !in s.aether
      && s.streams[s.cache[7]].server < |s.servers| && ServerOf(s, s.cache[7]).id == 8
  {
    var s1 := Step(h, EMPTY, OTHER_ANSWER[0]);
    assert s1.actions == map[0 := Request(7, CheckServerExists, true, None)];
    assert s1.cache == map[] && s1.aether == map[] && s1.streams == [] && s1.servers == [];
    var s3 := Step(h, Step(h, s1, OTHER_ANSWER[1]), OTHER_ANSWER[2]);
    assert s3 == s1.(actions := map[0 := Request(7, RequestServer, false, None)]);
    RunFour(h, EMPTY, OTHER_ANSWER);
  }

  /**
   One answer keeps the cache and Aether in agreement about the id it was asked
   for if and only if it names that id.
   */
  lemma {:induction false} AgreementNeedsTheId(h: EndpointsHash, s: State, g: SessionId, servers: seq<ServerDescriptor>)
    requires Inv(h, s) && g in s.actions && s.actions[g].Waiting() && servers != []
    requires s.actions[g].id != 0 && s.actions[g].id !in s.cache
    ensures var t := Step(h, s, Answered(g, servers)); var id := s.actions[g].id;
      && id in t.cache && t.cache[id] < |t.streams|
      && (id in t.aether && t.streams[t.cache[id]].server == t.aether[id] <==> servers[0].serverId == id)
  {
    var endpoints := Endpoints(servers[0].ips);
    var (s1, server) := BuildServer(s, servers[0].serverId, endpoints);
    BuildServerRight(s, servers[0].serverId, endpoints);
    BuildServerKeeps(h, s, servers[0].serverId, endpoints);
    var t := Step(h, s, Answered(g, servers));
    var id := s.actions[g].id;
    assert t.aether == s1.aether && t.streams == s1.streams + [ServerStream(server, [], 0, Unlinked, [])];
    assert t.cache == s.cache[id := |s.streams|];
    assert id in t.aether ==> s1.servers[s1.aether[id]].id == id;
  }
}
