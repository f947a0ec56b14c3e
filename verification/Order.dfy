/** In which order the sessions of a stream receive its data. */
module Order {
  import opened Wire
  import opened GatewayModel
  import opened GatewayInvariant
  import opened GatewaySteps
  import opened FanOut
  import opened Entries
  import opened Liveness

  function UpstreamOf(s: State, g: SessionId): Option<StreamRef> {
    if g < |s.sessions| then s.sessions[g].upstream else None
  }

  /** The place in the run of the event that tied a session, counted from 1; 0 as long as it is not tied. */
  ghost function TiedAt(h: EndpointsHash, events: seq<Event>, g: SessionId): nat
    decreases |events|
  {
    if events == [] then 0
    else
      var before := events[..|events| - 1];
      if UpstreamOf(Run(h, EMPTY, before), g) == None && UpstreamOf(Run(h, EMPTY, events), g).Some? then |events|
      else TiedAt(h, before, g)
  }

  function ListenersOf(s: State, st: StreamRef): seq<SessionId> {
    if st < |s.streams| then s.streams[st].listeners else []
  }

  // Some listeners may have left; the others keep their order.
  ghost predicate Thinned(was: seq<SessionId>, now: seq<SessionId>) {
    now == was || now == [] || exists i :: 0 <= i < |was| && now == Skip(was, i)
  }

  function Skip(ids: seq<SessionId>, i: nat): seq<SessionId>
    requires i < |ids|
  {
    ids[..i] + ids[i + 1..]
  }

  // Session g has just been tied to the stream, behind its other listeners.
  ghost predicate JoinsBehind(s: State, t: State, st: StreamRef, g: SessionId) {
    && UpstreamOf(s, g) == None && UpstreamOf(t, g).Some?
    && ListenersOf(t, st) == ListenersOf(s, st) + [g]
  }

  lemma {:induction false} TieListenersOf(s: State, g: SessionId, st: StreamRef, x: StreamRef)
    requires UpstreamOf(s, g) == None
    ensures ListenersOf(Tie(s, g, st), x) == ListenersOf(s, x) || JoinsBehind(s, Tie(s, g, st), x, g)
  {
  }

  lemma {:induction false} UpdateListeners(s: State, g: SessionId, st: StreamRef)
    requires g in s.actions ==> UpstreamOf(s, g) == None
    ensures var t := UpdateAction(s, g); ListenersOf(t, st) == ListenersOf(s, st) || JoinsBehind(s, t, st, g)
  {
    if g in s.actions {
      match s.actions[g]
      case Existing(x) => TieListenersOf(s, g, x, st);
      case Request(id, state, changed, found) =>
        if found.Some? {
          TieListenersOf(s, g, found.value, st);
        }
    }
  }

  lemma {:induction false} PacketListeners(h: EndpointsHash, s: State, e: Event, st: StreamRef)
    requires e.Packet?
    ensures ListenersOf(Step(h, s, e), st) == ListenersOf(s, st)
  {
    var want := e.call.Wanted();
    var key := MakeKey(h, e.device, e.call.client, want);
    WriteFrame(OpenStream(s, key, want, e.now), key, Item(want, e.call.data));
  }

  lemma {:induction false} LinkListeners(h: EndpointsHash, s: State, x: StreamRef, link: LinkState, st: StreamRef)
    requires Inv(h, s)
    ensures Thinned(ListenersOf(s, st), ListenersOf(SetLink(s, x, link), st))
  {
    if x < |s.streams| && link == LinkError {
      LinkErrorIs(h, s, x);
    } else if x < |s.streams| {
      LinkHealthyIs(h, s, x, link);
    }
  }

  lemma {:induction false} WithoutThins(ids: seq<SessionId>, g: SessionId)
    ensures Thinned(ids, Without(ids, g))
  {
    if ids != [] && ids[0] == g {
      assert Skip(ids, 0) == ids[1..];
    } else if ids != [] {
      WithoutThins(ids[1..], g);
      if Without(ids[1..], g) == [] && ids[1..] != [] {
        assert g == ids[1] && |ids| == 2;
        assert Skip(ids, 1) == [ids[0]];
      } else if Without(ids[1..], g) != ids[1..] {
        var i :| 0 <= i < |ids[1..]| && Without(ids[1..], g) == Skip(ids[1..], i);
        assert Skip(ids, i + 1) == [ids[0]] + Skip(ids[1..], i);
      } else {
        assert [ids[0]] + ids[1..] == ids;
      }
    }
  }

  lemma {:induction false} EraseThins(s: State, key: Key, st: StreamRef)
    ensures Thinned(ListenersOf(s, st), ListenersOf(StreamState(s, key), st))
  {
    if key in s.store {
      WithoutThins(ListenersOf(s, st), s.store[key].stream.id);
    }
  }

  lemma {:induction false} AnswerListeners(s: State, g: SessionId, servers: seq<ServerDescriptor>, st: StreamRef)
    ensures ListenersOf(Answer(s, g, servers), st) == ListenersOf(s, st)
  {
  }

  lemma {:induction false} StepListeners(h: EndpointsHash, s: State, e: Event, st: StreamRef)
    requires Inv(h, s)
    ensures var t := Step(h, s, e);
      Thinned(ListenersOf(s, st), ListenersOf(t, st)) || (e.Updated? && JoinsBehind(s, t, st, e.session))
  {
    match e
    case Packet(_, _, _) => PacketListeners(h, s, e, st);
    case Updated(g) =>
      ActionUntied(h, s, g);
      UpdateListeners(s, g, st);
    case Answered(g, servers) => AnswerListeners(s, g, servers, st);
    case Replied(x, data, now) => RepliedFrame(h, s, x, data, now);
    case LinkChanged(x, link) => LinkListeners(h, s, x, link, st);
    case StreamUpdated(key) => EraseThins(s, key, st);
    case _ =>
  }

  lemma {:induction false} ActionUntied(h: EndpointsHash, s: State, g: SessionId)
    requires Inv(h, s)
    ensures g in s.actions ==> UpstreamOf(s, g) == None
  {
    assert g in s.actions ==> ActionOk(s.actions[g], s.sessions[g], |s.streams|);
  }

  // The listeners were tied one after the other.
  ghost predicate InOrder(h: EndpointsHash, events: seq<Event>, ids: seq<SessionId>) {
    && (forall i :: 0 <= i < |ids| ==> 1 <= TiedAt(h, events, ids[i]) <= |events|)
    && (forall i, j :: 0 <= i < j < |ids| ==> TiedAt(h, events, ids[i]) < TiedAt(h, events, ids[j]))
  }

  lemma {:induction false} ListenersTied(h: EndpointsHash, s: State, st: StreamRef)
    requires Inv(h, s)
    ensures forall i :: 0 <= i < |ListenersOf(s, st)| ==> UpstreamOf(s, ListenersOf(s, st)[i]).Some?
  {
    if st < |s.streams| {
      ListenersLive(s, st);
      forall i | 0 <= i < |ListenersOf(s, st)| ensures UpstreamOf(s, ListenersOf(s, st)[i]).Some? {
        var key := s.sessions[ListenersOf(s, st)[i]].key;
        assert EntryOk(key, s.store[key], s.sessions);
      }
    }
  }

  lemma {:induction false} StillTiedAt(h: EndpointsHash, before: seq<Event>, e: Event, g: SessionId)
    ensures UpstreamOf(Run(h, EMPTY, before), g).Some? ==> TiedAt(h, before + [e], g) == TiedAt(h, before, g)
    ensures UpstreamOf(Run(h, EMPTY, before), g) == None && UpstreamOf(Step(h, Run(h, EMPTY, before), e), g).Some? ==>
      TiedAt(h, before + [e], g) == |before| + 1
  {
    var all := before + [e];
    assert all[..|all| - 1] == before && all[|all| - 1] == e;
    RunLast(h, EMPTY, all);
  }

  lemma {:induction false} OrderStays(h: EndpointsHash, before: seq<Event>, e: Event, ids: seq<SessionId>)
    requires InOrder(h, before, ids)
    requires forall i :: 0 <= i < |ids| ==> UpstreamOf(Run(h, EMPTY, before), ids[i]).Some?
    ensures InOrder(h, before + [e], ids)
  {
    forall i | 0 <= i < |ids| ensures TiedAt(h, before + [e], ids[i]) == TiedAt(h, before, ids[i]) {
      StillTiedAt(h, before, e, ids[i]);
    }
  }

  lemma {:induction false} OrderThins(h: EndpointsHash, events: seq<Event>, ids: seq<SessionId>, ids': seq<SessionId>)
    requires InOrder(h, events, ids) && Thinned(ids, ids')
    ensures InOrder(h, events, ids')
  {
  }

  lemma {:induction false} OrderGrows(h: EndpointsHash, before: seq<Event>, e: Event, ids: seq<SessionId>, g: SessionId)
    requires InOrder(h, before, ids) && InOrder(h, before + [e], ids)
    requires forall i :: 0 <= i < |ids| ==> UpstreamOf(Run(h, EMPTY, before), ids[i]).Some?
    requires TiedAt(h, before + [e], g) == |before| + 1
    ensures InOrder(h, before + [e], ids + [g])
  {
    forall i | 0 <= i < |ids| ensures TiedAt(h, before + [e], ids[i]) < |before| + 1 {
      StillTiedAt(h, before, e, ids[i]);
    }
  }

  /** Over any run the listeners of a stream stand in the order in which they were tied to it. */
  lemma {:induction false} ListenersInOrder(h: EndpointsHash, events: seq<Event>, st: StreamRef)
    ensures InOrder(h, events, ListenersOf(Run(h, EMPTY, events), st))
    decreases |events|
  {
    if events != [] {
      var before, e := events[..|events| - 1], events[|events| - 1];
      ListenersInOrder(h, before, st);
      NextInOrder(h, before, e, st);
      assert before + [e] == events;
    }
  }

  lemma {:induction false} NextInOrder(h: EndpointsHash, before: seq<Event>, e: Event, st: StreamRef)
    requires InOrder(h, before, ListenersOf(Run(h, EMPTY, before), st))
    ensures InOrder(h, before + [e], ListenersOf(Run(h, EMPTY, before + [e]), st))
  {
    var s := Run(h, EMPTY, before);
    RunBoth(h, EMPTY, before, [e]);
    RunOne(h, s, e);
    Reachable(h, before);
    ListenersTied(h, s, st);
    OrderStays(h, before, e, ListenersOf(s, st));
    StepListeners(h, s, e, st);
    if e.Updated? && JoinsBehind(s, Step(h, s, e), st, e.session) {
      StillTiedAt(h, before, e, e.session);
      OrderGrows(h, before, e, ListenersOf(s, st), e.session);
    } else {
      OrderThins(h, before + [e], ListenersOf(s, st), ListenersOf(Step(h, s, e), st));
    }
  }

  // The replies to the listeners of a stream, one after the other.
  function MadeFor(s: State, st: StreamRef, data: DataBuffer): seq<Output> {
    RepliesTo(s.sessions, ListenersOf(s, st), data)
  }

  lemma {:induction false} RepliesMade(h: EndpointsHash, s: State, st: StreamRef, data: DataBuffer, now: TimePoint)
    requires Inv(h, s) && st < |s.streams|
    ensures Step(h, s, Replied(st, data, now)).outputs == s.outputs + MadeFor(s, st, data)
  {
    ReplyIs(h, s, st, data, now);
  }

  lemma {:induction false} MadeInOrder(h: EndpointsHash, events: seq<Event>, st: StreamRef, data: DataBuffer)
    ensures var made := MadeFor(Run(h, EMPTY, events), st, data);
      forall k, l :: 0 <= k < l < |made| ==>
        TiedAt(h, events, made[k].session) < TiedAt(h, events, made[l].session)
  {
    var s := Run(h, EMPTY, events);
    Reachable(h, events);
    ListenersInOrder(h, events, st);
    ListenersKnown(h, s, st);
    RepliesBySession(s.sessions, ListenersOf(s, st), data);
  }

  lemma {:induction false} ListenersKnown(h: EndpointsHash, s: State, st: StreamRef)
    requires Inv(h, s)
    ensures forall i :: 0 <= i < |ListenersOf(s, st)| ==> ListenersOf(s, st)[i] < |s.sessions|
  {
    if st < |s.streams| {
      ListenersLive(s, st);
    }
  }

  /** In every reachable state the outputs of one datum come in the order in which their sessions were tied. */
  lemma {:induction false} RepliesInOrder(h: EndpointsHash, events: seq<Event>, st: StreamRef, data: DataBuffer,
                                          now: TimePoint, i: nat, j: nat)
    requires st < |Run(h, EMPTY, events).streams|
    ensures var s := Run(h, EMPTY, events); var all := Step(h, s, Replied(st, data, now)).outputs;
      |s.outputs| <= i < j < |all| ==> TiedAt(h, events, all[i].session) < TiedAt(h, events, all[j].session)
  {
    var s := Run(h, EMPTY, events);
    Reachable(h, events);
    RepliesMade(h, s, st, data, now);
    MadeInOrder(h, events, st, data);
    Shifted(s.outputs, MadeFor(s, st, data), g => TiedAt(h, events, g), i, j);
  }

  lemma {:induction false} Shifted(before: seq<Output>, made: seq<Output>, at: SessionId -> nat, i: nat, j: nat)
    requires forall k, l :: 0 <= k < l < |made| ==> at(made[k].session) < at(made[l].session)
    ensures var all := before + made; |before| <= i < j < |all| ==> at(all[i].session) < at(all[j].session)
  {
  }

  lemma {:induction false} RepliesBySession(sessions: seq<Session>, listeners: seq<SessionId>, data: DataBuffer)
    requires forall i :: 0 <= i < |listeners| ==> listeners[i] < |sessions|
    ensures |RepliesTo(sessions, listeners, data)| == |listeners|
    ensures forall i :: 0 <= i < |listeners| ==> RepliesTo(sessions, listeners, data)[i].session == listeners[i]
  {
    if listeners != [] {
      RepliesBySession(sessions, listeners[1..], data);
    }
  }
}
