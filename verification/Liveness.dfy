/** The life of server streams: who keeps them alive, and what the weak cache remembers. */
module Liveness {
  import opened Wire
  import opened GatewayModel
  import opened GatewayInvariant
  import opened GatewaySteps
  import opened FanOut
  import opened Entries

  // Every owner of an old stream stands for an owner it had before.
  ghost predicate NoNewOwners(s: State, t: State) {
    && (forall k :: k in t.store && t.store[k].stream.upstream.Some? && t.store[k].stream.upstream.value < |s.streams|
          ==> Alive(s, t.store[k].stream.upstream.value))
    && (forall g :: g in t.actions && t.actions[g].Held().Some? && t.actions[g].Held().value < |s.streams|
          ==> Alive(s, t.actions[g].Held().value))
  }

  lemma {:induction false} OwnersAlive(s: State)
    ensures forall k :: k in s.store && s.store[k].stream.upstream.Some? ==> Alive(s, s.store[k].stream.upstream.value)
    ensures forall g :: g in s.actions && s.actions[g].Held().Some? ==> Alive(s, s.actions[g].Held().value)
  {
    forall k | k in s.store && s.store[k].stream.upstream.Some? ensures Alive(s, s.store[k].stream.upstream.value) {
      assert HeldBySession(s, s.store[k].stream.upstream.value);
    }
    forall g | g in s.actions && s.actions[g].Held().Some? ensures Alive(s, s.actions[g].Held().value) {
      assert HeldByAction(s, s.actions[g].Held().value);
    }
  }

  lemma {:induction false} PacketOwners(h: EndpointsHash, s: State, e: Event)
    requires e.Packet?
    ensures NoNewOwners(s, Step(h, s, e))
  {
    var want := e.call.Wanted();
    var key := MakeKey(h, e.device, e.call.client, want);
    OpenStreamOwners(s, key, want, e.now);
    WriteOwners(s, OpenStream(s, key, want, e.now), key, Item(want, e.call.data));
  }

  lemma {:induction false} OpenStreamOwners(s: State, key: Key, want: ServeKind, now: TimePoint)
    ensures NoNewOwners(s, OpenStream(s, key, want, now))
  {
    OwnersAlive(s);
    if key !in s.store {
      GetStreamFrame(s, want);
      var (s1, action) := GetStream(s, want);
      match want {
        case ById(id) => assert action.Existing? ==> Alive(s, action.stream);
        case ByEndpoints(eps) => assert action == Existing(|s.streams|);
      }
      OpenSessionOwners(s, s1, key, want, action, now);
    }
  }

  lemma {:induction false} OpenSessionOwners(s: State, t: State, key: Key, want: ServeKind, action: GetAction,
                                             now: TimePoint)
    requires NoNewOwners(s, t)
    requires action.Held().Some? && action.Held().value < |s.streams| ==> Alive(s, action.Held().value)
    ensures NoNewOwners(s, OpenSession(t, key, want, action, now))
  {
  }

  lemma {:induction false} WriteOwners(s: State, t: State, key: Key, item: Item)
    requires NoNewOwners(s, t)
    ensures NoNewOwners(s, Write(t, key, item))
  {
  }

  lemma {:induction false} UpdateOwners(s: State, g: SessionId)
    ensures NoNewOwners(s, UpdateAction(s, g))
  {
    if g !in s.actions {
      OwnersAlive(s);
    } else {
      match s.actions[g]
      case Existing(st) => ReportOwners(s, g, st);
      case Request(id, state, changed, found) =>
        if found.Some? && state == Result {
          ReportOwners(s, g, found.value);
        } else if id in s.aether && state == CheckServerExists {
          ResolveOwners(s, g, id, s.aether[id]);
        } else {
          WaitOwners(s, g);
        }
    }
  }

  // Any other update of a request leaves it without a new stream.
  lemma {:induction false} WaitOwners(s: State, g: SessionId)
    requires g in s.actions && s.actions[g].Request?
    requires !(s.actions[g].found.Some? && s.actions[g].state == Result)
    requires !(s.actions[g].id in s.aether && s.actions[g].state == CheckServerExists)
    ensures NoNewOwners(s, UpdateAction(s, g))
  {
    OwnersAlive(s);
  }

  lemma {:induction false} ReportOwners(s: State, g: SessionId, st: StreamRef)
    requires g in s.actions && s.actions[g].Held() == Some(st)
    ensures NoNewOwners(s, Report(s, g, st))
  {
    OwnersAlive(s);
  }

  lemma {:induction false} ResolveOwners(s: State, g: SessionId, id: ServerId, server: ServerRef)
    ensures NoNewOwners(s, Resolve(s, g, id, server))
  {
    OwnersAlive(s);
  }

  lemma {:induction false} AnswerOwners(s: State, g: SessionId, servers: seq<ServerDescriptor>)
    ensures NoNewOwners(s, Answer(s, g, servers))
  {
    OwnersAlive(s);
  }

  lemma {:induction false} StepOwners(h: EndpointsHash, s: State, e: Event)
    requires Inv(h, s)
    ensures NoNewOwners(s, Step(h, s, e))
  {
    if e.Replied? || e.LinkChanged? {
      OwnersAlive(s);
      StreamEventFrame(h, s, e);
    } else {
      OwnOwners(h, s, e);
    }
  }

  lemma {:induction false} OwnOwners(h: EndpointsHash, s: State, e: Event)
    requires !e.Replied? && !e.LinkChanged?
    ensures NoNewOwners(s, Step(h, s, e))
  {
    match e
    case Packet(_, _, _) => PacketOwners(h, s, e);
    case Updated(g) => UpdateOwners(s, g);
    case Answered(g, servers) => AnswerOwners(s, g, servers);
    case Drained(key) => DrainOwners(s, key);
    case _ => OwnersAlive(s);
  }

  lemma {:induction false} DrainOwners(s: State, key: Key)
    ensures NoNewOwners(s, Drain(s, key))
  {
    OwnersAlive(s);
  }

  /** A stream nobody owns stays without owners. */
  lemma {:induction false} DeadStays(h: EndpointsHash, s: State, events: seq<Event>, st: StreamRef)
    requires Inv(h, s) && st < |s.streams| && !Alive(s, st)
    ensures !Alive(Run(h, s, events), st)
    decreases |events|
  {
    if events != [] {
      StepKeeps(h, s, events[0]);
      DeadNext(h, s, events[0], st);
      DeadStays(h, Step(h, s, events[0]), events[1..], st);
    }
  }

  lemma {:induction false} DeadNext(h: EndpointsHash, s: State, e: Event, st: StreamRef)
    requires Inv(h, s) && st < |s.streams| && !Alive(s, st)
    ensures st < |Step(h, s, e).streams| && !Alive(Step(h, s, e), st)
  {
    StepOwners(h, s, e);
    StreamsGrow(h, s, e);
  }

  lemma {:induction false} StreamsGrow(h: EndpointsHash, s: State, e: Event)
    requires Inv(h, s)
    ensures |s.streams| <= |Step(h, s, e).streams|
  {
    match e
    case Packet(_, _, _) => PacketFrame(h, s, e);
    case Updated(g) => UpdateFrame(s, g);
    case Answered(g, servers) => AnswerFrame(s, g, servers);
    case Replied(_, _, _) => StreamEventFrame(h, s, e);
    case LinkChanged(_, _) => StreamEventFrame(h, s, e);
    case Drained(key) => DrainFrame(s, key);
    case StreamUpdated(key) => EraseFrame(s, key);
    case _ =>
  }

  /* ---- The link of a stream and what has left it ---- */

  function LinkOf(s: State, st: StreamRef): LinkState {
    if st < |s.streams| then s.streams[st].link else Unlinked
  }

  function SentFrom(s: State, st: StreamRef): nat {
    if st < |s.streams| then s.streams[st].sent else 0
  }

  ghost predicate SameLink(s: State, t: State, st: StreamRef) {
    LinkOf(t, st) == LinkOf(s, st) && SentFrom(t, st) == SentFrom(s, st)
  }

  /** Only a link change sets a link, and only a sending that finds an item left takes one from the stream. */
  lemma {:induction false} StepStream(h: EndpointsHash, s: State, e: Event, st: StreamRef)
    requires Inv(h, s)
    ensures var t := Step(h, s, e);
      && LinkOf(t, st) == (if e.LinkChanged? && e.stream == st && st < |s.streams| then e.link else LinkOf(s, st))
      && SentFrom(t, st) ==
         (if e == Sent(st) && st < |s.streams| && s.streams[st].sent < |s.streams[st].received|
          then SentFrom(s, st) + 1 else SentFrom(s, st))
  {
    match e
    case Packet(_, _, _) => PacketStream(h, s, e, st);
    case Updated(g) => UpdateStream(s, g, st);
    case Answered(g, servers) => AnswerStream(s, g, servers, st);
    case Replied(_, _, _) => RepliedFrame(h, s, e.stream, e.data, e.now);
    case LinkChanged(x, link) => LinkChangedStream(h, s, x, link, st);
    case _ => OtherStream(h, s, e, st);
  }

  lemma {:induction false} PacketStream(h: EndpointsHash, s: State, e: Event, st: StreamRef)
    requires e.Packet?
    ensures SameLink(s, Step(h, s, e), st)
  {
    var want := e.call.Wanted();
    var key := MakeKey(h, e.device, e.call.client, want);
    WriteFrame(OpenStream(s, key, want, e.now), key, Item(want, e.call.data));
  }

  lemma {:induction false} UpdateStream(s: State, g: SessionId, st: StreamRef)
    ensures SameLink(s, UpdateAction(s, g), st)
  {
  }

  lemma {:induction false} AnswerStream(s: State, g: SessionId, servers: seq<ServerDescriptor>, st: StreamRef)
    ensures SameLink(s, Answer(s, g, servers), st)
  {
  }

  lemma {:induction false} LinkChangedStream(h: EndpointsHash, s: State, x: StreamRef, link: LinkState, st: StreamRef)
    requires Inv(h, s)
    ensures var t := SetLink(s, x, link);
      && LinkOf(t, st) == (if x == st && st < |s.streams| then link else LinkOf(s, st))
      && SentFrom(t, st) == SentFrom(s, st)
  {
    if x < |s.streams| && link == LinkError {
      LinkErrorIs(h, s, x);
    } else if x < |s.streams| {
      LinkHealthyIs(h, s, x, link);
    }
  }

  lemma {:induction false} OtherStream(h: EndpointsHash, s: State, e: Event, st: StreamRef)
    requires e.Refused? || e.Drained? || e.Sent? || e.StreamUpdated? || e.ServerLearned?
    ensures var t := Step(h, s, e);
      && LinkOf(t, st) == LinkOf(s, st)
      && SentFrom(t, st) ==
         (if e == Sent(st) && st < |s.streams| && s.streams[st].sent < |s.streams[st].received|
          then SentFrom(s, st) + 1 else SentFrom(s, st))
  {
  }
}
