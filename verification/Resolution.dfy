/** Which server a request ends at: what is in Aether's table, or what the resolver answered. */
module Resolution {
  import opened Wire
  import opened Flatten
  import opened GatewayModel
  import opened GatewayInvariant
  import opened GatewaySteps
  import opened FanOut
  import opened Entries
  import opened RightServer

  // The j-th pair of address i stands at its place.
  ghost predicate StandsAt(endpoints: ServerEndpoints, ips: seq<IpAddress>, i: nat, j: nat)
    requires i < |ips| && j < |ips[i].protocolAndPorts|
  {
    var p := ips[i].protocolAndPorts[j];
    && Offset(ips, i) + j < |endpoints|
    && endpoints[Offset(ips, i) + j] == Endpoint(ips[i].ip, p.port, p.protocol)
  }

  /** The endpoints are those of the addresses, pair by pair, and no others. */
  ghost predicate Lists(endpoints: ServerEndpoints, ips: seq<IpAddress>) {
    && |endpoints| == Offset(ips, |ips|)
    && (forall i, j :: 0 <= i < |ips| && 0 <= j < |ips[i].protocolAndPorts| ==> StandsAt(endpoints, ips, i, j))
  }

  lemma {:induction false} EndpointsList(ips: seq<IpAddress>)
    ensures Lists(Endpoints(ips), ips)
  {
    PrefixLength(ips, |ips|);
    forall i, j | 0 <= i < |ips| && 0 <= j < |ips[i].protocolAndPorts| ensures StandsAt(Endpoints(ips), ips, i, j) {
      EndpointAt(ips, i, j);
    }
  }

  /**
   The server that an answer stands for: one Aether holds already, or else a new
   one with the id and the addresses answered, which joins the cloud.
   */
  ghost predicate ServerFor(s: State, t: State, answer: ServerDescriptor, ref: ServerRef) {
    if answer.serverId != 0 && answer.serverId in s.aether then
      && t.servers == s.servers && t.cloud == s.cloud && t.aether == s.aether
      && ref == s.aether[answer.serverId]
    else
      && ref == |s.servers| && |t.servers| == ref + 1 && s.servers <= t.servers
      && t.servers[ref].id == answer.serverId
      && Lists(t.servers[ref].endpoints, answer.ips)
      && t.cloud == s.cloud + [ref]
      && t.aether == if answer.serverId != 0 then s.aether[answer.serverId := ref] else s.aether
  }

  lemma {:induction false} BuiltFor(s: State, answer: ServerDescriptor)
    ensures var (t, ref) := BuildServer(s, answer.serverId, Endpoints(answer.ips));
      && ServerFor(s, t, answer, ref)
      && t == s.(servers := t.servers, cloud := t.cloud, aether := t.aether)
  {
    EndpointsList(answer.ips);
  }

  // The action has a new stream on the server, and nothing else is different.
  ghost predicate Resolves(s: State, t: State, g: SessionId, id: ServerId, ref: ServerRef) {
    && t.streams == s.streams + [ServerStream(ref, [], 0, Unlinked, [])]
    && t.actions == s.actions[g := Request(id, Result, true, Some(|s.streams|))]
    && t.store == s.store && t.sessions == s.sessions && t.outputs == s.outputs
  }

  lemma {:induction false} ResolveResolves(s: State, g: SessionId, id: ServerId, ref: ServerRef)
    ensures var t := Resolve(s, g, id, ref);
      Resolves(s, t, g, id, ref) && t.servers == s.servers && t.cloud == s.cloud && t.aether == s.aether
  {
  }

  // The request of the session has asked the resolver and has no answer yet.
  ghost predicate Awaits(s: State, g: SessionId) {
    g in s.actions && s.actions[g].Request? && s.actions[g].state == RequestServer && !s.actions[g].changed
  }

  lemma {:induction false} AnswerBuilds(s: State, g: SessionId, servers: seq<ServerDescriptor>) returns (ref: ServerRef)
    requires Awaits(s, g) && servers != []
    ensures var t := Answer(s, g, servers);
      ServerFor(s, t, servers[0], ref) && Resolves(s, t, g, s.actions[g].id, ref)
  {
    BuiltFor(s, servers[0]);
    var (s1, server) := BuildServer(s, servers[0].serverId, Endpoints(servers[0].ips));
    ref := server;
    ResolveResolves(s1, g, s.actions[g].id, ref);
  }

  /* ---- Servers and streams stay what they are ---- */

  lemma {:induction false} PacketExtends(h: EndpointsHash, s: State, e: Event)
    requires e.Packet?
    ensures Extends(s, Step(h, s, e))
  {
    var want := e.call.Wanted();
    var key := MakeKey(h, e.device, e.call.client, want);
    GetStreamExtends(s, want);
    WriteFrame(OpenStream(s, key, want, e.now), key, Item(want, e.call.data));
  }

  lemma {:induction false} GetStreamExtends(s: State, want: ServeKind)
    ensures Extends(s, GetStream(s, want).0)
  {
  }

  lemma {:induction false} UpdateExtends(s: State, g: SessionId)
    ensures Extends(s, UpdateAction(s, g))
  {
    if g in s.actions && s.actions[g].Request? && s.actions[g].id in s.aether {
      ResolveResolves(s, g, s.actions[g].id, s.aether[s.actions[g].id]);
    }
  }

  lemma {:induction false} AnswerExtends(s: State, g: SessionId, servers: seq<ServerDescriptor>)
    ensures Extends(s, Answer(s, g, servers))
  {
    if Awaits(s, g) && servers != [] {
      var ref := AnswerBuilds(s, g, servers);
    }
  }

  lemma {:induction false} StepExtends(h: EndpointsHash, s: State, e: Event)
    requires Inv(h, s)
    ensures Extends(s, Step(h, s, e))
  {
    match e
    case Packet(_, _, _) => PacketExtends(h, s, e);
    case Updated(g) => UpdateExtends(s, g);
    case Answered(g, servers) => AnswerExtends(s, g, servers);
    case Replied(_, _, _) => StreamEventFrame(h, s, e);
    case LinkChanged(_, _) => StreamEventFrame(h, s, e);
    case _ => OtherFrame(h, s, e);
  }

  lemma {:induction false} RunExtends(h: EndpointsHash, s: State, events: seq<Event>)
    requires Inv(h, s)
    ensures Extends(s, Run(h, s, events))
    decreases |events|
  {
    if events != [] {
      StepExtends(h, s, events[0]);
      StepKeeps(h, s, events[0]);
      RunExtends(h, Step(h, s, events[0]), events[1..]);
    }
  }

  /* ---- The resolver's answer ---- */

  /**
   In every reachable state, an answer to a request that waits for one gives the
   request a new stream. It is built on the server of that id if Aether holds one,
   and if not on a new server with the answered id, whose endpoints are the pairs
   of the answered addresses, each at its place. Over any later run the stream
   stays on that server, and the server stays as it is.
   */
  lemma {:induction false} AnsweredServer(h: EndpointsHash, before: seq<Event>, g: SessionId,
                                          servers: seq<ServerDescriptor>, later: seq<Event>)
    returns (ref: ServerRef)
    requires Awaits(Run(h, EMPTY, before), g) && servers != []
    ensures var s := Run(h, EMPTY, before); var t := Step(h, s, Answered(g, servers)); var u := Run(h, t, later);
      && ServerFor(s, t, servers[0], ref)
      && Resolves(s, t, g, s.actions[g].id, ref)
      && |s.streams| < |u.streams| && u.streams[|s.streams|].server == ref
      && ref < |u.servers| && ref < |t.servers| && u.servers[ref] == t.servers[ref]
  {
    var s := Run(h, EMPTY, before);
    var t := Step(h, s, Answered(g, servers));
    Reachable(h, before);
    StepKeeps(h, s, Answered(g, servers));
    ref := AnswerBuilds(s, g, servers);
    RunExtends(h, t, later);
    assert t.streams[|s.streams|].server == ref;
  }

  /** An answer or a refusal that no request awaits changes nothing. */
  lemma {:induction false} UnaskedAnswers(h: EndpointsHash, s: State, g: SessionId, servers: seq<ServerDescriptor>)
    requires !Awaits(s, g)
    ensures Step(h, s, Answered(g, servers)) == s && Step(h, s, Refused(g)) == s
  {
  }

  /* ---- From the packet to the tie ---- */

  // The stored session is tied to the new stream, alone, and its request is over.
  ghost predicate TiedToNew(s: State, u: State, g: SessionId, ref: ServerRef) {
    var st := |s.streams|;
    && Live(u, g) && TiedTo(u, u.sessions[g].key, st)
    && |u.streams| == st + 1 && u.streams[st] == ServerStream(ref, [], 0, Unlinked, [g])
    && u.streams[..st] == s.streams
    && u.actions == s.actions - {g}
    && (forall k :: k in u.store <==> k in s.store)
    && (forall k :: k in s.store && k != u.sessions[g].key ==> u.store[k] == s.store[k])
  }

  lemma {:induction false} ResultTies(s: State, t: State, g: SessionId, id: ServerId, ref: ServerRef)
    requires Live(s, g) && Resolves(s, t, g, id, ref)
    ensures TiedToNew(s, UpdateAction(t, g), g, ref)
  {
    var u := UpdateAction(t, g);
    assert t.streams[|s.streams|].listeners + [g] == [g];
    assert u.actions == s.actions - {g};
  }

  /** A waiting request that is answered ties its session with its next update, to a stream on the server answered. */
  lemma {:induction false} AnswerTies(h: EndpointsHash, before: seq<Event>, g: SessionId,
                                      servers: seq<ServerDescriptor>)
    returns (ref: ServerRef)
    requires Live(Run(h, EMPTY, before), g) && Awaits(Run(h, EMPTY, before), g) && servers != []
    ensures var s := Run(h, EMPTY, before);
      var t := Step(h, s, Answered(g, servers));
      ServerFor(s, t, servers[0], ref) && TiedToNew(s, Step(h, t, Updated(g)), g, ref)
  {
    var s := Run(h, EMPTY, before);
    ref := AnswerBuilds(s, g, servers);
    ResultTies(s, Answer(s, g, servers), g, s.actions[g].id, ref);
  }

  /**
   A request for a server that Aether holds never asks the resolver: its first
   update makes a stream on that server, and its second ties the session to it.
   */
  lemma {:induction false} KnownServerTies(h: EndpointsHash, before: seq<Event>, g: SessionId, id: ServerId)
    requires var s := Run(h, EMPTY, before);
      Live(s, g) && g in s.actions && s.actions[g] == Request(id, CheckServerExists, true, None) && id in s.aether
    ensures var s := Run(h, EMPTY, before);
      var t := Step(h, s, Updated(g));
      && Resolves(s, t, g, id, s.aether[id]) && t.servers == s.servers
      && TiedToNew(s, Step(h, t, Updated(g)), g, s.aether[id])
  {
    var s := Run(h, EMPTY, before);
    ResolveResolves(s, g, id, s.aether[id]);
    ResultTies(s, Step(h, s, Updated(g)), g, id, s.aether[id]);
  }

  /** A request for a server that Aether does not hold waits for the resolver after two updates, and does nothing else. */
  lemma {:induction false} UnknownServerAsks(h: EndpointsHash, before: seq<Event>, g: SessionId, id: ServerId)
    requires var s := Run(h, EMPTY, before);
      g in s.actions && s.actions[g] == Request(id, CheckServerExists, true, None) && id !in s.aether
    ensures var s := Run(h, EMPTY, before);
      Step(h, Step(h, s, Updated(g)), Updated(g)) ==
      s.(actions := s.actions[g := Request(id, RequestServer, false, None)])
  {
    var s := Run(h, EMPTY, before);
    var s1 := s.(actions := s.actions[g := Request(id, RequestServer, true, None)]);
    assert Step(h, s, Updated(g)) == s1;
    assert s1.actions[g := Request(id, RequestServer, false, None)] ==
           s.actions[g := Request(id, RequestServer, false, None)];
  }
}
