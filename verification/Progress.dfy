/** A session whose resolution does not fail is tied and drained by events of its own. */
module Progress {
  import opened Wire
  import opened GatewayModel
  import opened GatewayInvariant
  import opened GatewaySteps
  import opened FanOut
  import opened Entries
  import opened ResolveAction
  import opened Teardown
  import opened RightServer

  // What a stored session still waits for: the steps of its action, and the items in its buffer.
  function Outstanding(s: State, g: SessionId): nat
    requires Live(s, g)
  {
    Rank(s, g) + |s.store[s.sessions[g].key].stream.buffer|
  }

  // The event takes the session's action a step further.
  predicate MovesAction(s: State, e: Event, g: SessionId) {
    && g in s.actions
    && (match s.actions[g]
        case Existing(_) => e == Updated(g)
        case Request(_, _, changed, _) =>
          if s.actions[g].Waiting() then (e.Answered? && e.session == g && e.servers != []) || e == Refused(g)
          else changed && e == Updated(g))
  }

  // The event passes an item of the session on.
  predicate PassesItem(s: State, e: Event, g: SessionId)
    requires Live(s, g)
  {
    var key := s.sessions[g].key; var x := s.store[key].stream;
    e == Drained(key) && x.upstream.Some? && x.upstream.value < |s.streams| && x.buffer != []
  }

  /** The event is one of the session's own that has an effect. */
  predicate IsOwn(s: State, e: Event, g: SessionId)
    requires Live(s, g)
  {
    MovesAction(s, e, g) || PassesItem(s, e, g)
  }

  /* ---- One event ---- */

  lemma {:induction false} OwnMoves(h: EndpointsHash, s: State, e: Event, g: SessionId)
    requires MovesAction(s, e, g)
    ensures var t := Step(h, s, e); !(g in t.actions && t.actions[g] == s.actions[g])
  {
    match e
    case Updated(_) =>
      if s.actions[g].Request? && s.actions[g].id in s.aether {
        ResolveFrame(s, g, s.actions[g].id, s.aether[s.actions[g].id]);
      }
    case _ =>
  }

  lemma {:induction false} RankStep(h: EndpointsHash, s: State, e: Event, g: SessionId)
    requires Inv(h, s) && g < |s.sessions|
    ensures Rank(Step(h, s, e), g) + (if MovesAction(s, e, g) then 1 else 0) <= Rank(s, g)
  {
    if g in s.actions {
      RankDecreasesIn(h, s, e, g);
      if MovesAction(s, e, g) {
        OwnMoves(h, s, e, g);
      }
    } else {
      GoneStays(h, s, e, g);
    }
  }

  // The buffer under a key gains an item with a packet for it, loses one when it is drained, and keeps the rest.
  ghost predicate BufferMoves(h: EndpointsHash, s: State, t: State, e: Event, key: Key) {
    key in s.store && key in t.store ==>
      |t.store[key].stream.buffer| ==
      |s.store[key].stream.buffer| + (if IsPacketFor(h, e, key) then 1 else 0)
        - (if e == Drained(key) && t != s then 1 else 0)
  }

  lemma {:induction false} BufferStep(h: EndpointsHash, s: State, e: Event, key: Key)
    requires Inv(h, s)
    ensures BufferMoves(h, s, Step(h, s, e), e, key)
  {
    if e.Replied? || e.LinkChanged? {
      StreamEventFrame(h, s, e);
    } else if e.Packet? {
      assert key in s.store ==> EntryOk(key, s.store[key], s.sessions);
      PacketBuffer(h, s, e, key);
    } else {
      OwnBuffer(h, s, e, key);
    }
  }

  lemma {:induction false} PacketBuffer(h: EndpointsHash, s: State, e: Event, key: Key)
    requires e.Packet? && (key in s.store ==> s.store[key].stream.id < |s.sessions|)
    ensures BufferMoves(h, s, Step(h, s, e), e, key)
  {
    GetStreamFrame(s, e.call.Wanted());
  }

  lemma {:induction false} OwnBuffer(h: EndpointsHash, s: State, e: Event, key: Key)
    requires !e.Packet? && !e.Replied? && !e.LinkChanged?
    ensures BufferMoves(h, s, Step(h, s, e), e, key)
  {
    match e
    case Updated(g) => UpdateBuffer(s, g, key);
    case Answered(g, servers) => AnswerBuffer(s, g, servers);
    case Drained(k) =>
    case _ =>
  }

  lemma {:induction false} TieBuffer(s: State, g: SessionId, st: StreamRef, key: Key)
    ensures var t := Report(s, g, st);
      key in s.store ==> key in t.store && t.store[key].stream.buffer == s.store[key].stream.buffer
  {
  }

  lemma {:induction false} UpdateBuffer(s: State, g: SessionId, key: Key)
    ensures var t := UpdateAction(s, g);
      key in s.store ==> key in t.store && t.store[key].stream.buffer == s.store[key].stream.buffer
  {
    if g in s.actions {
      match s.actions[g]
      case Existing(st) => TieBuffer(s, g, st, key);
      case Request(id, state, changed, found) =>
        if found.Some? && state == Result {
          TieBuffer(s, g, found.value, key);
        } else if id in s.aether {
          ResolveFrame(s, g, id, s.aether[id]);
        }
    }
  }

  lemma {:induction false} AnswerBuffer(s: State, g: SessionId, servers: seq<ServerDescriptor>)
    ensures Answer(s, g, servers).store == s.store
  {
  }

  // A session stored after an event was stored before it, under the same key.
  lemma {:induction false} LiveBefore(h: EndpointsHash, s: State, e: Event, g: SessionId)
    requires Inv(h, s) && g < |s.sessions|
    ensures var t := Step(h, s, e);
      && g < |t.sessions| && t.sessions[g].key == s.sessions[g].key
      && (Live(t, g) ==> Live(s, g))
  {
    if e == Updated(g) {
      UpdateUntouched(s, g);
      UpdateSessions(s, g);
    } else {
      OthersKeep(h, s, e, g);
      if Live(Step(h, s, e), g) {
        NoRevival(h, s, e, g);
      }
    }
  }

  lemma {:induction false} PassedItem(h: EndpointsHash, s: State, e: Event, g: SessionId)
    requires Live(s, g) && PassesItem(s, e, g)
    ensures Step(h, s, e) != s && !MovesAction(s, e, g)
  {
    var key := s.sessions[g].key;
    assert |Drain(s, key).store[key].stream.buffer| < |s.store[key].stream.buffer|;
  }

  /** An own event brings a stored session nearer to its end; only a packet for it puts it back. */
  lemma {:induction false} StepProgress(h: EndpointsHash, s: State, e: Event, g: SessionId)
    requires Inv(h, s) && Live(s, g) && Live(Step(h, s, e), g)
    ensures Outstanding(Step(h, s, e), g) + (if IsOwn(s, e, g) then 1 else 0)
         <= Outstanding(s, g) + (if IsPacketFor(h, e, s.sessions[g].key) then 1 else 0)
  {
    LiveBefore(h, s, e, g);
    RankStep(h, s, e, g);
    BufferStep(h, s, e, s.sessions[g].key);
    if PassesItem(s, e, g) {
      PassedItem(h, s, e, g);
    }
  }

  /* ---- Runs ---- */

  // The events of a run that are the session's own and have an effect.
  function OwnEvents(h: EndpointsHash, s: State, events: seq<Event>, g: SessionId): nat
    decreases |events|
  {
    if events == [] then 0
    else
      (if Live(s, g) && IsOwn(s, events[0], g) then 1 else 0) + OwnEvents(h, Step(h, s, events[0]), events[1..], g)
  }

  function PacketsFor(h: EndpointsHash, events: seq<Event>, key: Key): nat {
    if events == [] then 0 else (if IsPacketFor(h, events[0], key) then 1 else 0) + PacketsFor(h, events[1..], key)
  }

  lemma {:induction false} LiveAllAlong(h: EndpointsHash, s: State, events: seq<Event>, g: SessionId)
    requires Inv(h, s) && g < |s.sessions|
    ensures var t := Run(h, s, events);
      g < |t.sessions| && t.sessions[g].key == s.sessions[g].key && (Live(t, g) ==> Live(s, g))
    decreases |events|
  {
    if events != [] {
      StepKeeps(h, s, events[0]);
      LiveBefore(h, s, events[0], g);
      LiveAllAlong(h, Step(h, s, events[0]), events[1..], g);
    }
  }

  lemma {:induction false} RunProgress(h: EndpointsHash, s: State, events: seq<Event>, g: SessionId)
    requires Inv(h, s) && Live(s, g) && Live(Run(h, s, events), g)
    ensures Outstanding(Run(h, s, events), g) + OwnEvents(h, s, events, g)
         <= Outstanding(s, g) + PacketsFor(h, events, s.sessions[g].key)
    decreases |events|
  {
    if events != [] {
      var t := Step(h, s, events[0]);
      StepKeeps(h, s, events[0]);
      LiveBefore(h, s, events[0], g);
      LiveAllAlong(h, t, events[1..], g);
      StepProgress(h, s, events[0], g);
      RunProgress(h, t, events[1..], g);
    }
  }

  /** The session is tied, and all that was written to it has been passed on. */
  ghost predicate Settled(s: State, g: SessionId) {
    && Live(s, g) && g !in s.actions
    && (var x := s.store[s.sessions[g].key].stream;
        && x.upstream.Some? && x.buffer == []
        && Forwarded(s.streams, x.upstream, g) == s.sessions[g].written)
  }

  lemma {:induction false} SettledWhenDone(h: EndpointsHash, s: State, g: SessionId)
    requires Inv(h, s) && Live(s, g) && !Stranded(s, g)
    ensures Outstanding(s, g) == 0 <==> Settled(s, g)
  {
    var key := s.sessions[g].key;
    assert EntryOk(key, s.store[key], s.sessions) && BufferOk(s.store[key].stream, s.sessions, s.streams);
    SettledIn(s, g);
  }

  lemma {:induction false} SettledIn(s: State, g: SessionId)
    requires Live(s, g) && !Stranded(s, g)
    requires var key := s.sessions[g].key;
      EntryOk(key, s.store[key], s.sessions) && BufferOk(s.store[key].stream, s.sessions, s.streams)
    ensures Outstanding(s, g) == 0 <==> Settled(s, g)
  {
    var passed := Forwarded(s.streams, s.sessions[g].upstream, g);
    assert passed + [] == passed;
  }

  /**
   Over any run: a session that is stored at its end and whose action has not
   reported an error is tied and drained as soon as it has had as many events of
   its own as its action had steps and its buffer items before, and one more for
   each packet for it in between.
   */
  lemma {:induction false} SettlesInTime(h: EndpointsHash, before: seq<Event>, after: seq<Event>, g: SessionId)
    requires g < |Run(h, EMPTY, before).sessions|
    requires Live(Run(h, EMPTY, before + after), g) && Reports(h, before + after, g) != [Error]
    ensures var s := Run(h, EMPTY, before);
      && Live(s, g)
      && (OwnEvents(h, s, after, g) >= Outstanding(s, g) + PacketsFor(h, after, s.sessions[g].key) ==>
            Settled(Run(h, EMPTY, before + after), g))
  {
    var s := Run(h, EMPTY, before);
    Reachable(h, before);
    Reachable(h, before + after);
    RunBoth(h, EMPTY, before, after);
    LiveAllAlong(h, s, after, g);
    RunProgress(h, s, after, g);
    StrandedExactly(h, before + after, g);
    SettledWhenDone(h, Run(h, EMPTY, before + after), g);
  }

  /* ---- And there always is a next event ---- */

  // The event a session waits for; a resolver answers with the given servers.
  function NextOwn(s: State, g: SessionId, servers: seq<ServerDescriptor>): Event
    requires Live(s, g)
  {
    if g in s.actions then (if s.actions[g].Waiting() then Answered(g, servers) else Updated(g))
    else Drained(s.sessions[g].key)
  }

  // No resolver has refused the session's request.
  ghost predicate NotRefused(s: State, g: SessionId) {
    !Stranded(s, g) && !(g in s.actions && s.actions[g].Request? && s.actions[g].state == Error)
  }

  lemma {:induction false} NextIsOwn(h: EndpointsHash, s: State, g: SessionId, servers: seq<ServerDescriptor>)
    requires Inv(h, s) && Live(s, g) && NotRefused(s, g) && servers != [] && Outstanding(s, g) > 0
    ensures IsOwn(s, NextOwn(s, g, servers), g)
  {
    var key := s.sessions[g].key;
    if g in s.actions {
      assert ActionOk(s.actions[g], s.sessions[g], |s.streams|);
    } else {
      assert TiedOk(s.store[key].stream, s.streams);
    }
  }

  // The session's own next event neither erases it nor fails its request, and writes nothing.
  lemma {:induction false} NextIsSafe(h: EndpointsHash, s: State, g: SessionId, servers: seq<ServerDescriptor>)
    requires Live(s, g) && NotRefused(s, g) && servers != []
    requires g in s.actions ==> ActionOk(s.actions[g], s.sessions[g], |s.streams|)
    requires Outstanding(s, g) > 0
    ensures var t := Step(h, s, NextOwn(s, g, servers));
      && Live(t, g) && NotRefused(t, g) && t.sessions[g].written == s.sessions[g].written
  {
    var e := NextOwn(s, g, servers);
    if g in s.actions {
      OwnStep(h, s, e, g);
      if e.Updated? {
        UpdateIsSafe(s, g);
      } else {
        AnswerUntouched(s, g, servers);
      }
    }
  }

  lemma {:induction false} UpdateIsSafe(s: State, g: SessionId)
    requires Live(s, g) && g in s.actions && ActionOk(s.actions[g], s.sessions[g], |s.streams|)
    requires s.actions[g].Request? ==> s.actions[g].state != Error
    ensures var t := UpdateAction(s, g);
      && Live(t, g) && NotRefused(t, g) && t.sessions[g].written == s.sessions[g].written
  {
    UpdateUntouched(s, g);
    UpdateBuffer(s, g, s.sessions[g].key);
    UpdateSessions(s, g);
  }

  /**
   In every reachable state, a stored session whose request has not been refused
   is tied and drained by at most as many events of its own as its action has steps
   and its buffer items, without any others.
   */
  lemma {:induction false} CanSettle(h: EndpointsHash, events: seq<Event>, g: SessionId, servers: seq<ServerDescriptor>)
    returns (own: seq<Event>)
    requires Live(Run(h, EMPTY, events), g) && NotRefused(Run(h, EMPTY, events), g) && servers != []
    ensures var s := Run(h, EMPTY, events); var t := Run(h, EMPTY, events + own);
      && |own| <= Outstanding(s, g) && OwnEvents(h, s, own, g) == |own|
      && Settled(t, g) && t.sessions[g].written == s.sessions[g].written
  {
    Reachable(h, events);
    own := CanSettleIn(h, Run(h, EMPTY, events), g, servers);
    RunBoth(h, EMPTY, events, own);
  }

  lemma {:induction false} CanSettleIn(h: EndpointsHash, s: State, g: SessionId, servers: seq<ServerDescriptor>)
    returns (own: seq<Event>)
    requires Inv(h, s) && Live(s, g) && NotRefused(s, g) && servers != []
    ensures |own| <= Outstanding(s, g) && OwnEvents(h, s, own, g) == |own|
    ensures Settled(Run(h, s, own), g)
    ensures Run(h, s, own).sessions[g].written == s.sessions[g].written
    decreases Outstanding(s, g)
  {
    if Outstanding(s, g) == 0 {
      SettledWhenDone(h, s, g);
      own := [];
    } else {
      var e := NextOwn(s, g, servers);
      NextIsOwn(h, s, g, servers);
      assert g in s.actions ==> ActionOk(s.actions[g], s.sessions[g], |s.streams|);
      NextIsSafe(h, s, g, servers);
      StepKeeps(h, s, e);
      StepProgress(h, s, e, g);
      var rest := CanSettleIn(h, Step(h, s, e), g, servers);
      own := [e] + rest;
      assert own[1..] == rest;
    }
  }
}
