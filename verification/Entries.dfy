/** What one event does to one entry of the session table. */
module Entries {
  import opened Wire
  import opened GatewayModel
  import opened GatewayInvariant
  import opened GatewaySteps
  import opened FanOut

  predicate IsPacketFor(h: EndpointsHash, e: Event, key: Key) {
    e.Packet? && MakeKey(h, e.device, e.call.client, e.call.Wanted()) == key
  }

  // What an event adds to what the client of a key has sent.
  function NewItems(h: EndpointsHash, e: Event, key: Key): seq<Item> {
    if IsPacketFor(h, e, key) then [Item(e.call.Wanted(), e.call.data)] else []
  }

  // Is the event an input or an output of the session under the key?
  predicate Touches(h: EndpointsHash, s: State, e: Event, key: Key) {
    IsPacketFor(h, e, key) || (e.Replied? && e.stream < |s.streams| && TiedTo(s, key, e.stream))
  }

  function UsedAt(h: EndpointsHash, s: State, e: Event, key: Key, before: TimePoint): TimePoint {
    if Touches(h, s, e, key) then e.now else before
  }

  // The same session is under the key before and after the event.
  ghost predicate Continues(h: EndpointsHash, s: State, t: State, e: Event, key: Key)
    requires key in s.store && s.store[key].stream.id < |s.sessions|
  {
    var g := s.store[key].stream.id;
    && key in t.store && t.store[key].stream.id == g && g < |t.sessions|
    && t.sessions[g].written == s.sessions[g].written + NewItems(h, e, key)
    && t.store[key].lastUsed == UsedAt(h, s, e, key, s.store[key].lastUsed)
  }

  // The event opened the session under the key.
  ghost predicate Begins(h: EndpointsHash, s: State, t: State, e: Event, key: Key) {
    && IsPacketFor(h, e, key)
    && key in t.store
    && t.store[key].stream.id == |s.sessions| < |t.sessions|
    && t.sessions[|s.sessions|].written == NewItems(h, e, key)
    && t.store[key].lastUsed == e.now
  }

  lemma {:induction false} GetStreamFrame(s: State, server: ServeKind)
    ensures var s1 := GetStream(s, server).0;
      && s1 == s.(cache := s1.cache, streams := s1.streams, servers := s1.servers, aether := s1.aether, cloud := s1.cloud)
      && s.streams <= s1.streams && s.servers <= s1.servers
  {
  }

  lemma {:induction false} PacketEntry(h: EndpointsHash, s: State, e: Event, key: Key)
    requires StoreOk(s.store, s.sessions) && e.Packet?
    ensures var t := Step(h, s, e);
      && (key in s.store ==> Continues(h, s, t, e, key))
      && (key !in s.store && key in t.store ==> Begins(h, s, t, e, key))
  {
    var want := e.call.Wanted();
    var k := MakeKey(h, e.device, e.call.client, want);
    var s1 := OpenStream(s, k, want, e.now);
    GetStreamFrame(s, want);
    assert key in s.store ==> EntryOk(key, s.store[key], s.sessions);
    assert k in s.store ==> EntryOk(k, s.store[k], s.sessions);
    if k in s.store {
      assert s1 == Touch(s, k, e.now);
      WriteEntry(s1, k, Item(want, e.call.data), key);
    } else {
      assert s1.store[k].stream.id == |s.sessions| && |s1.sessions| == |s.sessions| + 1;
      WriteEntry(s1, k, Item(want, e.call.data), key);
    }
  }

  lemma {:induction false} WriteEntry(s: State, k: Key, item: Item, key: Key)
    requires k in s.store && s.store[k].stream.id < |s.sessions|
    requires key in s.store ==> s.store[key].stream.id < |s.sessions|
    requires key in s.store && key != k ==> s.store[key].stream.id != s.store[k].stream.id
    ensures var t := Write(s, k, item);
      && |t.sessions| == |s.sessions| && (key in t.store <==> key in s.store)
      && (key in s.store ==>
            var g := s.store[key].stream.id;
            && t.store[key].stream.id == g && t.store[key].lastUsed == s.store[key].lastUsed
            && t.sessions[g].written == s.sessions[g].written + (if key == k then [item] else []))
  {
    if key in s.store && key != k {
      var written := s.sessions[s.store[key].stream.id].written;
      assert written + [] == written;
    }
  }

  // Sessions may have gone, but none has been used or written to.
  ghost predicate Untouched(s: State, t: State) {
    && |t.sessions| == |s.sessions|
    && (forall g :: 0 <= g < |s.sessions| ==> t.sessions[g].written == s.sessions[g].written)
    && (forall k :: k in t.store ==>
          k in s.store && t.store[k].stream.id == s.store[k].stream.id && t.store[k].lastUsed == s.store[k].lastUsed)
  }

  lemma {:induction false} TieUntouched(s: State, g: SessionId, st: StreamRef)
    ensures Untouched(s, Tie(s, g, st))
  {
  }

  lemma {:induction false} ResolveFrame(s: State, g: SessionId, id: ServerId, server: ServerRef)
    ensures var t := Resolve(s, g, id, server); t.store == s.store && t.sessions == s.sessions
  {
  }

  lemma {:induction false} UpdateUntouched(s: State, g: SessionId)
    ensures Untouched(s, UpdateAction(s, g))
  {
    if g in s.actions {
      match s.actions[g]
      case Existing(st) => TieUntouched(s, g, st);
      case Request(id, state, changed, found) =>
        if changed {
          match state
          case CheckServerExists =>
            if id in s.aether {
              ResolveFrame(s, g, id, s.aether[id]);
            }
          case RequestServer =>
          case Result =>
            if found.Some? {
              TieUntouched(s, g, found.value);
            }
          case Error =>
        }
    }
  }

  lemma {:induction false} AnswerUntouched(s: State, g: SessionId, servers: seq<ServerDescriptor>)
    ensures Untouched(s, Answer(s, g, servers))
  {
  }

  lemma {:induction false} DrainUntouched(s: State, key: Key)
    ensures Untouched(s, Drain(s, key))
  {
  }

  lemma {:induction false} EraseUntouched(s: State, key: Key)
    ensures Untouched(s, StreamState(s, key))
  {
  }

  lemma {:induction false} LinkUntouched(h: EndpointsHash, s: State, st: StreamRef, link: LinkState)
    requires Inv(h, s)
    ensures Untouched(s, SetLink(s, st, link))
  {
    if st < |s.streams| && link == LinkError {
      LinkErrorIs(h, s, st);
    } else if st < |s.streams| {
      LinkHealthyIs(h, s, st, link);
    }
  }

  lemma {:induction false} QuietUntouched(h: EndpointsHash, s: State, e: Event)
    requires Inv(h, s) && !e.Packet? && !e.Replied?
    ensures Untouched(s, Step(h, s, e))
  {
    match e
    case Updated(g) => UpdateUntouched(s, g);
    case Answered(g, servers) => AnswerUntouched(s, g, servers);
    case LinkChanged(st, link) => LinkUntouched(h, s, st, link);
    case Drained(key) => DrainUntouched(s, key);
    case StreamUpdated(key) => EraseUntouched(s, key);
    case _ =>
  }

  /** Every entry after an event either continues a session or is one the event opened. */
  lemma {:induction false} StepEntry(h: EndpointsHash, s: State, e: Event, key: Key)
    requires Inv(h, s)
    ensures var t := Step(h, s, e);
      && (key in s.store && key in t.store ==> s.store[key].stream.id < |s.sessions| && Continues(h, s, t, e, key))
      && (key !in s.store && key in t.store ==> Begins(h, s, t, e, key))
  {
    assert key in s.store ==> EntryOk(key, s.store[key], s.sessions);
    if e.Packet? {
      PacketEntry(h, s, e, key);
    } else if !e.Replied? {
      QuietUntouched(h, s, e);
      QuietEntry(h, s, e, key);
    } else {
      ReplyEntry(h, s, e, key);
    }
  }

  lemma {:induction false} QuietEntry(h: EndpointsHash, s: State, e: Event, key: Key)
    requires !e.Packet? && !e.Replied? && Untouched(s, Step(h, s, e))
    requires key in s.store ==> s.store[key].stream.id < |s.sessions|
    ensures var t := Step(h, s, e);
      && (key in s.store && key in t.store ==> Continues(h, s, t, e, key))
      && (key !in s.store ==> key !in t.store)
  {
    if key in s.store {
      var written := s.sessions[s.store[key].stream.id].written;
      assert written + [] == written;
    }
  }

  lemma {:induction false} ReplyEntry(h: EndpointsHash, s: State, e: Event, key: Key)
    requires Inv(h, s) && e.Replied? && (key in s.store ==> s.store[key].stream.id < |s.sessions|)
    ensures var t := Step(h, s, e);
      && (key in s.store ==> Continues(h, s, t, e, key))
      && (key !in s.store ==> key !in t.store)
  {
    if key in s.store {
      var written := s.sessions[s.store[key].stream.id].written;
      assert written + [] == written;
    }
    if e.stream < |s.streams| {
      ReplyIs(h, s, e.stream, e.data, e.now);
    }
  }

  /* ---- The rest of the state ---- */

  // An event about another subject leaves a pending action alone.
  lemma {:induction false} OtherActions(h: EndpointsHash, s: State, e: Event, g: SessionId)
    requires Inv(h, s) && g in s.actions && g < |s.sessions|
    requires !(e.Updated? && e.session == g) && !(e.Answered? && e.session == g) && !(e.Refused? && e.session == g)
    ensures var t := Step(h, s, e); g in t.actions && t.actions[g] == s.actions[g]
  {
    if e.Replied? || e.LinkChanged? {
      StreamEventFrame(h, s, e);
    } else {
      OwnActions(h, s, e, g);
    }
  }

  lemma {:induction false} OwnActions(h: EndpointsHash, s: State, e: Event, g: SessionId)
    requires g in s.actions && g < |s.sessions| && !e.Replied? && !e.LinkChanged?
    requires !(e.Updated? && e.session == g) && !(e.Answered? && e.session == g) && !(e.Refused? && e.session == g)
    ensures var t := Step(h, s, e); g in t.actions && t.actions[g] == s.actions[g]
  {
    match e
    case Packet(_, _, _) => PacketFrame(h, s, e);
    case Updated(x) => UpdateFrame(s, x);
    case Answered(x, servers) => AnswerFrame(s, x, servers);
    case Drained(key) => DrainFrame(s, key);
    case StreamUpdated(key) => EraseFrame(s, key);
    case _ =>
  }

  lemma {:induction false} PacketFrame(h: EndpointsHash, s: State, e: Event)
    requires e.Packet?
    ensures var t := Step(h, s, e);
      && (t.actions == s.actions ||
          (t.actions == s.actions[|s.sessions| := GetStream(s, e.call.Wanted()).1] && |t.sessions| == |s.sessions| + 1))
      && t.cache in {s.cache, LiveView(s)}
      && |s.streams| <= |t.streams|
  {
    var want := e.call.Wanted();
    GetStreamFrame(s, want);
    var key := MakeKey(h, e.device, e.call.client, want);
    var s1 := OpenStream(s, key, want, e.now);
    assert s1.cache in {s.cache, LiveView(s)};
    WriteFrame(s1, key, Item(want, e.call.data));
  }

  lemma {:induction false} WriteFrame(s: State, key: Key, item: Item)
    ensures var t := Write(s, key, item);
      t == s.(store := t.store, sessions := t.sessions) && |t.sessions| == |s.sessions|
  {
  }

  lemma {:induction false} DrainFrame(s: State, key: Key)
    ensures var t := Drain(s, key); t == s.(store := t.store, streams := t.streams) && |t.streams| == |s.streams|
  {
  }

  lemma {:induction false} EraseFrame(s: State, key: Key)
    ensures var t := StreamState(s, key); t == s.(store := t.store, streams := t.streams) && |t.streams| == |s.streams|
  {
  }

  // Only the actions of session g change, and only a request that resolves stores a stream.
  ghost predicate OnlyAction(s: State, t: State, g: SessionId) {
    && (forall x :: x in s.actions && x != g ==> x in t.actions && t.actions[x] == s.actions[x])
    && (forall x :: x in t.actions && x != g ==> x in s.actions)
    && |s.streams| <= |t.streams|
    && (t.cache == s.cache ||
        (g in s.actions && s.actions[g].Unresolved() && s.actions[g].id !in s.cache
         && t.cache == s.cache[s.actions[g].id := |s.streams|]))
  }

  lemma {:induction false} UpdateFrame(s: State, g: SessionId)
    ensures OnlyAction(s, UpdateAction(s, g), g)
  {
    if g in s.actions {
      match s.actions[g]
      case Existing(st) => ReportOnly(s, g, st);
      case Request(id, state, changed, found) =>
        UpdateRequestFrame(s, g);
    }
  }

  lemma {:induction false} UpdateRequestFrame(s: State, g: SessionId)
    requires g in s.actions && s.actions[g].Request?
    ensures OnlyAction(s, UpdateAction(s, g), g)
  {
    var action := s.actions[g];
    if action.changed && action.state == CheckServerExists && action.id in s.aether {
      ResolveOnly(s, g, s.aether[action.id]);
    } else {
      NoResolveFrame(s, g);
    }
  }

  lemma {:induction false} NoResolveFrame(s: State, g: SessionId)
    requires g in s.actions && s.actions[g].Request?
    requires var action := s.actions[g];
      !(action.changed && action.state == CheckServerExists && action.id in s.aether)
    ensures OnlyAction(s, UpdateAction(s, g), g)
  {
    var action := s.actions[g];
    if action.found.Some? {
      ReportOnly(s, g, action.found.value);
    }
  }

  lemma {:induction false} ReportOnly(s: State, g: SessionId, st: StreamRef)
    ensures OnlyAction(s, Report(s, g, st), g)
  {
  }

  lemma {:induction false} ResolveOnly(s: State, g: SessionId, server: ServerRef)
    requires g in s.actions && s.actions[g].Request?
    ensures s.actions[g].Unresolved() ==> OnlyAction(s, Resolve(s, g, s.actions[g].id, server), g)
  {
  }

  lemma {:induction false} AnswerFrame(s: State, g: SessionId, servers: seq<ServerDescriptor>)
    ensures OnlyAction(s, Answer(s, g, servers), g)
  {
  }

  /* ---- Runs seen from their last event ---- */

  lemma {:induction false} RunLast(h: EndpointsHash, s: State, events: seq<Event>)
    requires events != []
    ensures Run(h, s, events) == Step(h, Run(h, s, events[..|events| - 1]), events[|events| - 1])
    decreases |events|
  {
    if |events| > 1 {
      var s1 := Step(h, s, events[0]);
      assert events[1..][..|events| - 2] == events[..|events| - 1][1..];
      RunLast(h, s1, events[1..]);
    }
  }

  lemma {:induction false} RunBoth(h: EndpointsHash, s: State, first: seq<Event>, then': seq<Event>)
    ensures Run(h, s, first + then') == Run(h, Run(h, s, first), then')
    decreases |first|
  {
    if first == [] {
      assert first + then' == then';
    } else {
      assert (first + then')[1..] == first[1..] + then';
      RunBoth(h, Step(h, s, first[0]), first[1..], then');
    }
  }

  lemma {:induction false} RunOne(h: EndpointsHash, s: State, e: Event)
    ensures Run(h, s, [e]) == Step(h, s, e)
  {
    assert [e][1..] == [];
    assert Run(h, Step(h, s, e), []) == Step(h, s, e);
  }

  lemma {:induction false} RunTwo(h: EndpointsHash, s: State, e: Event, e': Event)
    ensures Run(h, s, [e, e']) == Step(h, Step(h, s, e), e')
  {
    assert [e, e'][1..] == [e'];
    RunFirst(h, s, [e, e']);
    RunOne(h, Step(h, s, e), e');
  }

  lemma {:induction false} RunThree(h: EndpointsHash, s: State, events: seq<Event>)
    requires |events| == 3
    ensures Run(h, s, events) == Step(h, Step(h, Step(h, s, events[0]), events[1]), events[2])
  {
    assert events[1..] == [events[1], events[2]];
    RunFirst(h, s, events);
    RunTwo(h, Step(h, s, events[0]), events[1], events[2]);
  }

  lemma {:induction false} RunFour(h: EndpointsHash, s: State, events: seq<Event>)
    requires |events| == 4
    ensures Run(h, s, events) == Step(h, Step(h, Step(h, Step(h, s, events[0]), events[1]), events[2]), events[3])
  {
    RunFirst(h, s, events);
    RunThree(h, Step(h, s, events[0]), events[1..]);
  }

  lemma {:induction false} RunFirst(h: EndpointsHash, s: State, events: seq<Event>)
    requires events != []
    ensures Run(h, s, events) == Run(h, Step(h, s, events[0]), events[1..])
  {
  }
}
