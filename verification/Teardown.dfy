/** What a link error ends, and what a failed resolution leaves behind. */
module Teardown {
  import opened Wire
  import opened GatewayModel
  import opened GatewayInvariant
  import opened GatewaySteps
  import opened FanOut
  import opened Entries
  import opened Liveness
  import opened ResolveAction
  import opened Sharing

  /**
   After a link error no session holds the stream; it stays alive if and only if
   a pending get-action holds it, and exactly then the next lookup of an id it is
   cached for still returns it.
   */
  lemma {:induction false} LinkErrorTearsDown(h: EndpointsHash, s: State, st: StreamRef, id: ServerId)
    requires Inv(h, s) && st < |s.streams|
    ensures var t := Step(h, s, LinkChanged(st, LinkError));
      && !HeldBySession(t, st)
      && (Alive(t, st) <==> HeldByAction(s, st))
      && (GetStreamById(t, id).1 == Existing(st) <==> id in s.cache && s.cache[id] == st && HeldByAction(s, st))
  {
    LinkErrorIs(h, s, st);
    var t := Step(h, s, LinkChanged(st, LinkError));
    assert forall k :: k in t.store ==> !TiedTo(s, k, st);
    assert HeldByAction(t, st) == HeldByAction(s, st);
  }

  // The stream of server 7 breaks while a second device's get-action holds it.
  const HELD_WHEN_BROKEN := [AskSeven(1), ServerLearned(Server(7, [])), Updated(0), AskSeven(2), Updated(0)]

  // The session of the second device, which is not tied yet.
  ghost predicate SecondIsStored(s: State) {
    && |s.sessions| == 2 && s.sessions[1].key == Key(2, 0, 7) && Live(s, 1)
    && s.store[Key(2, 0, 7)].stream.upstream == None
  }

  lemma {:induction false} HeldRun(h: EndpointsHash)
    ensures var s := Run(h, EMPTY, HELD_WHEN_BROKEN);
      && s.cache == map[7 := 0] && |s.streams| == 1 && s.actions == map[1 := Existing(0)]
      && SecondIsStored(s)
  {
    OneAsks(h);
    var s1 := Step(h, EMPTY, HELD_WHEN_BROKEN[0]);
    var s3 := Step(h, Step(h, s1, HELD_WHEN_BROKEN[1]), HELD_WHEN_BROKEN[2]);
    assert s3.actions == map[0 := Request(7, Result, true, Some(0))] && s3.cache == map[7 := 0];
    assert |s3.streams| == 1 && s3.store == s1.store && s3.sessions == s1.sessions;
    ThenJoined(h, s3);
    RunThree(h, EMPTY, HELD_WHEN_BROKEN[..3]);
    RunTwo(h, s3, HELD_WHEN_BROKEN[3], HELD_WHEN_BROKEN[4]);
    RunBoth(h, EMPTY, HELD_WHEN_BROKEN[..3], HELD_WHEN_BROKEN[3..]);
    assert HELD_WHEN_BROKEN[..3] + HELD_WHEN_BROKEN[3..] == HELD_WHEN_BROKEN;
    assert HELD_WHEN_BROKEN[3..] == [HELD_WHEN_BROKEN[3], HELD_WHEN_BROKEN[4]];
  }

  lemma {:induction false} ThenJoined(h: EndpointsHash, s3: State)
    requires s3.actions == map[0 := Request(7, Result, true, Some(0))] && s3.cache == map[7 := 0]
    requires s3.store.Keys == {Key(1, 0, 7)} && |s3.sessions| == 1 && |s3.streams| == 1
    ensures var s := Step(h, Step(h, s3, AskSeven(2)), Updated(0));
      && s.cache == map[7 := 0] && |s.streams| == 1 && s.actions == map[1 := Existing(0)]
      && SecondIsStored(s)
  {
    assert 0 in s3.actions && s3.actions[0].Held() == Some(0) && HeldByAction(s3, 0);
    assert LiveView(s3) == map[7 := 0];
    var s4 := Step(h, s3, AskSeven(2));
    assert s4.actions == map[0 := Request(7, Result, true, Some(0)), 1 := Existing(0)];
  }

  /** This happens: here a broken stream is still what lookups return. */
  lemma {:induction false} BrokenButHeld(h: EndpointsHash)
    ensures var t := Step(h, Run(h, EMPTY, HELD_WHEN_BROKEN), LinkChanged(0, LinkError));
      && 0 < |t.streams| && t.streams[0].link == LinkError
      && !HeldBySession(t, 0) && Alive(t, 0)
      && GetStreamById(t, 7).1 == Existing(0)
  {
    HeldRun(h);
    Reachable(h, HELD_WHEN_BROKEN);
    BreaksWhileHeld(h, Run(h, EMPTY, HELD_WHEN_BROKEN));
  }

  lemma {:induction false} BreaksWhileHeld(h: EndpointsHash, s: State)
    requires Inv(h, s) && s.cache == map[7 := 0] && |s.streams| == 1 && s.actions == map[1 := Existing(0)]
    ensures var t := Step(h, s, LinkChanged(0, LinkError));
      && 0 < |t.streams| && t.streams[0].link == LinkError
      && !HeldBySession(t, 0) && Alive(t, 0)
      && GetStreamById(t, 7).1 == Existing(0)
  {
    assert HeldByAction(s, 0) by {
      assert 1 in s.actions && s.actions[1].Held() == Some(0);
    }
    LinkErrorTearsDown(h, s, 0, 7);
    LinkErrorIs(h, s, 0);
  }

  /** If no action holds it, the stream is never used again: not by a session, an action or a lookup. */
  lemma {:induction false} TornDownForGood(h: EndpointsHash, s: State, st: StreamRef, later: seq<Event>, id: ServerId)
    requires Inv(h, s) && st < |s.streams| && !HeldByAction(s, st)
    ensures var u := Run(h, Step(h, s, LinkChanged(st, LinkError)), later);
      && !HeldBySession(u, st) && !HeldByAction(u, st)
      && GetStreamById(u, id).1 != Existing(st)
  {
    var t := Step(h, s, LinkChanged(st, LinkError));
    LinkErrorTearsDown(h, s, st, id);
    StepKeeps(h, s, LinkChanged(st, LinkError));
    StreamsGrow(h, s, LinkChanged(st, LinkError));
    DeadStays(h, t, later, st);
  }

  /* ---- The session's own stream update ---- */

  /** What the link of a stream was last set to, read off the run. */
  ghost function LastLink(h: EndpointsHash, events: seq<Event>, st: StreamRef): LinkState
    decreases |events|
  {
    if events == [] then Unlinked
    else
      var before, e := events[..|events| - 1], events[|events| - 1];
      if e.LinkChanged? && e.stream == st && st < |Run(h, EMPTY, before).streams| then e.link
      else LastLink(h, before, st)
  }

  lemma {:induction false} LinkIsLast(h: EndpointsHash, events: seq<Event>, st: StreamRef)
    ensures LinkOf(Run(h, EMPTY, events), st) == LastLink(h, events, st)
    decreases |events|
  {
    if events != [] {
      var before, e := events[..|events| - 1], events[|events| - 1];
      LinkIsLast(h, before, st);
      RunLast(h, EMPTY, events);
      Reachable(h, before);
      StepStream(h, Run(h, EMPTY, before), e, st);
    }
  }

  // The key is stored and tied to a stream whose link was last set to an error.
  ghost predicate TiedToBroken(h: EndpointsHash, events: seq<Event>, key: Key) {
    var s := Run(h, EMPTY, events);
    key in s.store && s.store[key].stream.upstream.Some?
    && LastLink(h, events, s.store[key].stream.upstream.value) == LinkError
  }

  // The key is gone, and its session's listener with it; everything else is as it was.
  ghost predicate LeavesStream(s: State, t: State, key: Key, st: StreamRef, i: nat)
    requires key in s.store
  {
    && t.store == (map k | k in s.store && k != key :: s.store[k])
    && st < |s.streams| && i < |s.streams[st].listeners| && s.streams[st].listeners[i] == s.store[key].stream.id
    && t == s.(store := t.store, streams := t.streams)
    && t.streams == s.streams[st := s.streams[st].(
         listeners := s.streams[st].listeners[..i] + s.streams[st].listeners[i + 1..])]
    && s.store[key].stream.id !in t.streams[st].listeners
  }

  /**
   In every reachable state the stream update of a stored session erases it if and
   only if the link of its stream was last set to an error: then just its entry and
   its listener go. If it was the last to hold the stream, no lookup ever returns
   the stream again. In all other cases nothing changes.
   */
  lemma {:induction false} StreamUpdateErases(h: EndpointsHash, before: seq<Event>, key: Key, later: seq<Event>,
                                              id: ServerId)
    returns (i: nat)
    ensures var s := Run(h, EMPTY, before); var t := Step(h, s, StreamUpdated(key));
      if TiedToBroken(h, before, key) then
        var st := s.store[key].stream.upstream.value;
        && LeavesStream(s, t, key, st, i)
        && (LastHolder(s, key, st) ==>
              !Alive(Run(h, t, later), st) && GetStreamById(Run(h, t, later), id).1 != Existing(st))
      else t == s
  {
    var s := Run(h, EMPTY, before);
    Reachable(h, before);
    BrokenIsInError(h, before, key);
    i := 0;
    if TiedToBroken(h, before, key) {
      i := ErasedByUpdate(h, s, key, later, id);
    }
  }

  lemma {:induction false} BrokenIsInError(h: EndpointsHash, before: seq<Event>, key: Key)
    requires Inv(h, Run(h, EMPTY, before))
    ensures var s := Run(h, EMPTY, before);
      TiedToBroken(h, before, key) <==> key in s.store && InError(s, s.store[key].stream)
  {
    var s := Run(h, EMPTY, before);
    if key in s.store && s.store[key].stream.upstream.Some? {
      LinkIsLast(h, before, s.store[key].stream.upstream.value);
      TiedHasStream(h, s, key);
    }
  }

  lemma {:induction false} ErasedByUpdate(h: EndpointsHash, s: State, key: Key, later: seq<Event>, id: ServerId)
    returns (i: nat)
    requires Inv(h, s) && key in s.store && InError(s, s.store[key].stream)
    ensures var st := s.store[key].stream.upstream.value; var t := StreamState(s, key);
      && LeavesStream(s, t, key, st, i)
      && (LastHolder(s, key, st) ==>
            !Alive(Run(h, t, later), st) && GetStreamById(Run(h, t, later), id).1 != Existing(st))
  {
    i := EraseLeaves(h, s, key);
    if LastHolder(s, key, s.store[key].stream.upstream.value) {
      LastHolderGone(h, s, key, later, id);
    }
  }

  lemma {:induction false} DeadNotFound(s: State, id: ServerId, st: StreamRef)
    requires !Alive(s, st)
    ensures GetStreamById(s, id).1 != Existing(st)
  {
  }

  lemma {:induction false} TiedHasStream(h: EndpointsHash, s: State, key: Key)
    requires Inv(h, s) && key in s.store && s.store[key].stream.upstream.Some?
    ensures s.store[key].stream.upstream.value < |s.streams|
  {
    assert TiedOk(s.store[key].stream, s.streams);
  }

  lemma {:induction false} EraseLeaves(h: EndpointsHash, s: State, key: Key) returns (i: nat)
    requires Inv(h, s) && key in s.store && InError(s, s.store[key].stream)
    ensures LeavesStream(s, StreamState(s, key), key, s.store[key].stream.upstream.value, i)
  {
    i := ListenerAt(h, s, key);
    EraseIs(s, key, i);
  }

  lemma {:induction false} ListenerAt(h: EndpointsHash, s: State, key: Key) returns (i: nat)
    requires Inv(h, s) && key in s.store && InError(s, s.store[key].stream)
    ensures var e := s.store[key].stream; TakenOut(s.streams[e.upstream.value].listeners, e.id, i)
  {
    var e := s.store[key].stream;
    assert TiedOk(e, s.streams) && NoDuplicates(s.streams[e.upstream.value].listeners);
    i := WithoutAt(s.streams[e.upstream.value].listeners, e.id);
  }

  // Taking out a listener takes out the one at i.
  ghost predicate TakenOut(ids: seq<SessionId>, g: SessionId, i: nat) {
    && i < |ids| && ids[i] == g
    && Without(ids, g) == ids[..i] + ids[i + 1..] && g !in Without(ids, g)
  }

  lemma {:induction false} EraseIs(s: State, key: Key, i: nat)
    requires key in s.store && InError(s, s.store[key].stream)
    requires var e := s.store[key].stream; TakenOut(s.streams[e.upstream.value].listeners, e.id, i)
    ensures LeavesStream(s, StreamState(s, key), key, s.store[key].stream.upstream.value, i)
  {
  }

  lemma {:induction false} WithoutAt(ids: seq<SessionId>, g: SessionId) returns (i: nat)
    requires g in ids && NoDuplicates(ids)
    ensures TakenOut(ids, g, i)
  {
    WithoutIs(ids, g);
    if ids[0] == g {
      i := 0;
    } else {
      assert ids == [ids[0]] + ids[1..];
      i := WithoutAt(ids[1..], g);
      i := i + 1;
      assert ids[..i] == [ids[0]] + ids[1..][..i - 1];
    }
  }

  // The stream is held by the session under the key, and by nobody else.
  ghost predicate LastHolder(s: State, key: Key, st: StreamRef) {
    !HeldByAction(s, st) && forall k :: TiedTo(s, k, st) ==> k == key
  }

  lemma {:induction false} LastHolderGone(h: EndpointsHash, s: State, key: Key, later: seq<Event>, id: ServerId)
    requires Inv(h, s) && key in s.store && InError(s, s.store[key].stream)
    requires LastHolder(s, key, s.store[key].stream.upstream.value)
    ensures var st := s.store[key].stream.upstream.value; var u := Run(h, StreamState(s, key), later);
      !Alive(u, st) && GetStreamById(u, id).1 != Existing(st)
  {
    NobodyLeft(s, key);
    StreamStateKeeps(h, s, key);
    DeadForGood(h, StreamState(s, key), later, s.store[key].stream.upstream.value, id);
  }

  lemma {:induction false} DeadForGood(h: EndpointsHash, s: State, later: seq<Event>, st: StreamRef, id: ServerId)
    requires Inv(h, s) && st < |s.streams| && !Alive(s, st)
    ensures !Alive(Run(h, s, later), st) && GetStreamById(Run(h, s, later), id).1 != Existing(st)
  {
    DeadStays(h, s, later, st);
    DeadNotFound(Run(h, s, later), id, st);
  }

  lemma {:induction false} NobodyLeft(s: State, key: Key)
    requires key in s.store && InError(s, s.store[key].stream)
    requires LastHolder(s, key, s.store[key].stream.upstream.value)
    ensures var st, t := s.store[key].stream.upstream.value, StreamState(s, key); st < |t.streams| && !Alive(t, st)
  {
    var st, t := s.store[key].stream.upstream.value, StreamState(s, key);
    assert !HeldByAction(t, st) && forall k :: k in t.store ==> k in s.store && t.store[k] == s.store[k];
    if HeldBySession(t, st) {
      var k :| k in t.store && t.store[k].stream.upstream == Some(st);
      assert TiedTo(s, k, st);
    }
  }

  // The broken stream is tied to the second device's session, by the action that held it.
  const TIED_WHEN_BROKEN := HELD_WHEN_BROKEN + [LinkChanged(0, LinkError), Updated(1)]

  /** This happens: here a session is tied to a stream that is broken already, and its own update ends that. */
  lemma {:induction false} BrokenIsTied(h: EndpointsHash)
    ensures var s := Run(h, EMPTY, TIED_WHEN_BROKEN); var t := Step(h, s, StreamUpdated(Key(2, 0, 7)));
      && TiedTo(s, Key(2, 0, 7), 0) && 0 < |s.streams| && s.streams[0].link == LinkError
      && Key(2, 0, 7) !in t.store && !Alive(t, 0) && GetStreamById(t, 7).1.Request?
  {
    HeldRun(h);
    Reachable(h, HELD_WHEN_BROKEN);
    var s := Run(h, EMPTY, HELD_WHEN_BROKEN);
    ThenBroken(h, s);
    ThenTied(h, Step(h, s, LinkChanged(0, LinkError)));
    TiedRun(h);
  }

  lemma {:induction false} TiedRun(h: EndpointsHash)
    ensures Run(h, EMPTY, TIED_WHEN_BROKEN) ==
            Step(h, Step(h, Run(h, EMPTY, HELD_WHEN_BROKEN), LinkChanged(0, LinkError)), Updated(1))
  {
    RunTwo(h, Run(h, EMPTY, HELD_WHEN_BROKEN), LinkChanged(0, LinkError), Updated(1));
    RunBoth(h, EMPTY, HELD_WHEN_BROKEN, [LinkChanged(0, LinkError), Updated(1)]);
  }

  lemma {:induction false} ThenBroken(h: EndpointsHash, s: State)
    requires Inv(h, s) && SecondIsStored(s) && |s.streams| == 1
    ensures var t := Step(h, s, LinkChanged(0, LinkError));
      && t == s.(store := t.store, streams := t.streams)
      && SecondIsStored(t) && |t.streams| == 1 && t.streams[0].link == LinkError && forall k :: !TiedTo(t, k, 0)
  {
    LinkErrorIs(h, s, 0);
  }

  lemma {:induction false} ThenTied(h: EndpointsHash, s: State)
    requires s.cache == map[7 := 0] && |s.streams| == 1 && s.actions == map[1 := Existing(0)]
    requires SecondIsStored(s) && s.streams[0].link == LinkError && forall k :: !TiedTo(s, k, 0)
    ensures var u := Step(h, s, Updated(1)); var t := Step(h, u, StreamUpdated(Key(2, 0, 7)));
      && TiedTo(u, Key(2, 0, 7), 0) && 0 < |u.streams| && u.streams[0].link == LinkError
      && Key(2, 0, 7) !in t.store && !Alive(t, 0) && GetStreamById(t, 7).1.Request?
  {
    var u := Step(h, s, Updated(1));
    assert TiedTo(u, Key(2, 0, 7), 0) && u.actions == map[];
    assert forall k :: k in u.store && k != Key(2, 0, 7) ==> u.store[k] == s.store[k] && !TiedTo(s, k, 0);
  }

  /* ---- Failed resolutions ---- */

  // A stored session that is not tied and that no action will ever tie.
  ghost predicate Stranded(s: State, g: SessionId) {
    Live(s, g) && s.store[s.sessions[g].key].stream.upstream == None && g !in s.actions
  }

  lemma {:induction false} RefusalStrands(h: EndpointsHash, s: State, g: SessionId)
    requires Inv(h, s) && Live(s, g) && g in s.actions && s.actions[g].Waiting()
    ensures Stranded(Run(h, s, [Refused(g), Updated(g)]), g)
  {
    assert EntryOk(s.sessions[g].key, s.store[s.sessions[g].key], s.sessions);
    assert ActionOk(s.actions[g], s.sessions[g], |s.streams|);
    RunTwo(h, s, Refused(g), Updated(g));
    RefusedIsDropped(s, g);
  }

  lemma {:induction false} RefusedIsDropped(s: State, g: SessionId)
    requires g in s.actions && s.actions[g].Waiting()
    ensures UpdateAction(Refuse(s, g), g) == s.(actions := s.actions - {g})
  {
    var s1 := Refuse(s, g);
    assert s1.actions[g] == Request(s.actions[g].id, Error, true, None);
    assert s1.actions - {g} == s.actions - {g};
  }

  lemma {:induction false} PacketStranded(h: EndpointsHash, s: State, e: Event, g: SessionId)
    requires StoreOk(s.store, s.sessions) && Stranded(s, g) && e.Packet?
    ensures Stranded(Step(h, s, e), g)
    ensures Step(h, s, e).sessions[g].key == s.sessions[g].key
  {
    var want := e.call.Wanted();
    var key := MakeKey(h, e.device, e.call.client, want);
    GetStreamFrame(s, want);
    assert key in s.store ==> EntryOk(key, s.store[key], s.sessions);
  }

  lemma {:induction false} UpdateStranded(s: State, x: SessionId, g: SessionId)
    requires StoreOk(s.store, s.sessions) && Stranded(s, g)
    ensures var t := UpdateAction(s, x); Stranded(t, g) && t.sessions[g].key == s.sessions[g].key
  {
    if x in s.actions {
      assert x != g;
      match s.actions[x]
      case Existing(st) => TieStranded(s, x, st, g);
      case Request(id, state, changed, found) =>
        if found.Some? && state == Result {
          TieStranded(s, x, found.value, g);
        } else {
          if id in s.aether {
            ResolveFrame(s, x, id, s.aether[id]);
          }
          WaitStranded(s, x, g);
        }
    }
  }

  // Any other update of another session's request ties nobody.
  lemma {:induction false} WaitStranded(s: State, x: SessionId, g: SessionId)
    requires Stranded(s, g) && x in s.actions && x != g && s.actions[x].Request?
    requires !(s.actions[x].found.Some? && s.actions[x].state == Result)
    ensures var t := UpdateAction(s, x); Stranded(t, g) && t.sessions == s.sessions
  {
  }

  lemma {:induction false} TieStranded(s: State, x: SessionId, st: StreamRef, g: SessionId)
    requires Stranded(s, g) && x != g
    ensures var t := Tie(s, x, st); Stranded(t, g) && t.sessions[g].key == s.sessions[g].key
  {
  }

  lemma {:induction false} StepStranded(h: EndpointsHash, s: State, e: Event, g: SessionId)
    requires Inv(h, s) && Stranded(s, g)
    ensures var t := Step(h, s, e); Stranded(t, g) && t.sessions[g].key == s.sessions[g].key
  {
    match e
    case Packet(_, _, _) => PacketStranded(h, s, e, g);
    case Updated(x) => UpdateStranded(s, x, g);
    case Answered(x, servers) => AnswerStranded(s, x, servers, g);
    case Drained(key) => DrainStranded(s, key, g);
    case Replied(st, data, now) => ReplyStranded(h, s, st, data, now, g);
    case LinkChanged(st, link) => LinkStranded(h, s, st, link, g);
    case _ => OtherStranded(h, s, e, g);
  }

  lemma {:induction false} OtherStranded(h: EndpointsHash, s: State, e: Event, g: SessionId)
    requires Stranded(s, g) && (e.Refused? || e.Sent? || e.StreamUpdated? || e.ServerLearned?)
    ensures var t := Step(h, s, e); Stranded(t, g) && t.sessions == s.sessions
  {
  }

  lemma {:induction false} ReplyStranded(h: EndpointsHash, s: State, st: StreamRef, data: DataBuffer, now: TimePoint,
                                         g: SessionId)
    requires Inv(h, s) && Stranded(s, g)
    ensures var t := Reply(s, st, data, now); Stranded(t, g) && t.sessions == s.sessions
  {
    if st < |s.streams| {
      ReplyIs(h, s, st, data, now);
    }
  }

  lemma {:induction false} AnswerStranded(s: State, x: SessionId, servers: seq<ServerDescriptor>, g: SessionId)
    requires Stranded(s, g)
    ensures var t := Answer(s, x, servers); Stranded(t, g) && t.sessions == s.sessions
  {
  }

  lemma {:induction false} DrainStranded(s: State, key: Key, g: SessionId)
    requires Stranded(s, g)
    ensures var t := Drain(s, key); Stranded(t, g) && t.sessions == s.sessions
  {
  }

  lemma {:induction false} LinkStranded(h: EndpointsHash, s: State, st: StreamRef, link: LinkState, g: SessionId)
    requires Inv(h, s) && Stranded(s, g)
    ensures var t := SetLink(s, st, link); Stranded(t, g) && t.sessions == s.sessions
  {
    if st < |s.streams| && link == LinkError {
      LinkErrorIs(h, s, st);
    } else if st < |s.streams| {
      LinkHealthyIs(h, s, st, link);
    }
  }

  /**
   A session whose resolution failed is stuck for good: it keeps its key, so no
   new session can be opened there, and passes none of its input on.
   */
  lemma {:induction false} StrandedForever(h: EndpointsHash, before: seq<Event>, after: seq<Event>, g: SessionId)
    requires Stranded(Run(h, EMPTY, before), g)
    ensures var key := Run(h, EMPTY, before).sessions[g].key;
      var t := Run(h, EMPTY, before + after);
      && key in t.store && t.store[key].stream.id == g < |t.sessions|
      && t.store[key].stream.upstream == None
      && t.store[key].stream.buffer == t.sessions[g].written
  {
    Reachable(h, before);
    RunBoth(h, EMPTY, before, after);
    StrandedIn(h, Run(h, EMPTY, before), after, g);
  }

  lemma {:induction false} StrandedIn(h: EndpointsHash, s: State, events: seq<Event>, g: SessionId)
    requires Inv(h, s) && Stranded(s, g)
    ensures var t := Run(h, s, events); var key := s.sessions[g].key;
      && key in t.store && t.store[key].stream.id == g < |t.sessions|
      && t.store[key].stream.upstream == None
      && t.store[key].stream.buffer == t.sessions[g].written
    decreases |events|
  {
    if events == [] {
      var key := s.sessions[g].key;
      assert EntryOk(key, s.store[key], s.sessions) && BufferOk(s.store[key].stream, s.sessions, s.streams);
      assert [] + s.store[key].stream.buffer == s.store[key].stream.buffer;
    } else {
      StepKeeps(h, s, events[0]);
      StepStranded(h, s, events[0], g);
      StrandedIn(h, Step(h, s, events[0]), events[1..], g);
    }
  }

  /* ---- What strands a session ---- */

  // An event that is no update of a session's own action neither ties the session nor revives it.
  ghost predicate Kept(s: State, t: State, g: SessionId)
    requires g < |s.sessions|
  {
    && g < |t.sessions|
    && t.sessions[g].key == s.sessions[g].key
    && t.sessions[g].upstream == s.sessions[g].upstream
  }

  lemma {:induction false} OthersKeep(h: EndpointsHash, s: State, e: Event, g: SessionId)
    requires Inv(h, s) && g < |s.sessions| && e != Updated(g)
    ensures Kept(s, Step(h, s, e), g)
  {
    if e.Replied? || e.LinkChanged? {
      StreamEventFrame(h, s, e);
    } else {
      OwnKeep(h, s, e, g);
    }
  }

  lemma {:induction false} OwnKeep(h: EndpointsHash, s: State, e: Event, g: SessionId)
    requires g < |s.sessions| && e != Updated(g) && !e.Replied? && !e.LinkChanged?
    ensures Kept(s, Step(h, s, e), g)
  {
    match e
    case Packet(_, call, _) => PacketKeeps(h, s, e, g);
    case Updated(x) => UpdateKeeps(s, x, g);
    case Answered(x, servers) => AnswerUntouched(s, x, servers);
    case _ =>
  }

  lemma {:induction false} PacketKeeps(h: EndpointsHash, s: State, e: Event, g: SessionId)
    requires g < |s.sessions| && e.Packet?
    ensures Kept(s, Step(h, s, e), g)
  {
    GetStreamFrame(s, e.call.Wanted());
  }

  lemma {:induction false} UpdateKeeps(s: State, x: SessionId, g: SessionId)
    requires g < |s.sessions| && x != g
    ensures Kept(s, UpdateAction(s, x), g)
  {
    if x in s.actions && s.actions[x].Request? && s.actions[x].id in s.aether {
      ResolveFrame(s, x, s.actions[x].id, s.aether[s.actions[x].id]);
    }
  }

  lemma {:induction false} NoRevival(h: EndpointsHash, s: State, e: Event, g: SessionId)
    requires Inv(h, s) && g < |s.sessions| && Kept(s, Step(h, s, e), g) && Live(Step(h, s, e), g)
    ensures Live(s, g)
  {
    StepEntry(h, s, e, s.sessions[g].key);
  }

  // A stored session without an action is tied exactly if its action reported a result.
  ghost predicate TiedByReport(s: State, g: SessionId, reports: seq<ResolveState>) {
    Live(s, g) && g !in s.actions ==> (s.sessions[g].upstream.Some? <==> reports == [Result])
  }

  lemma {:induction false} OwnReportTies(h: EndpointsHash, s: State, g: SessionId)
    requires g in s.actions && g < |s.sessions| && ActionOk(s.actions[g], s.sessions[g], |s.streams|)
    ensures TiedByReport(Step(h, s, Updated(g)), g, ReportOf(s, g))
  {
    OwnStep(h, s, Updated(g), g);
  }

  lemma {:induction false} OtherReportTies(h: EndpointsHash, s: State, e: Event, g: SessionId,
                                           reports: seq<ResolveState>)
    requires Inv(h, s) && e != Updated(g) && (g in s.actions ==> g < |s.sessions|)
    requires TiedByReport(s, g, reports)
    ensures TiedByReport(Step(h, s, e), g, reports)
  {
    if g >= |s.sessions| {
      FreshAction(h, s, e, g);
    } else if g in s.actions {
      if IsAbout(e, g) {
        assert ActionOk(s.actions[g], s.sessions[g], |s.streams|);
        OwnStep(h, s, e, g);
      } else {
        OtherActions(h, s, e, g);
      }
    } else {
      OthersKeep(h, s, e, g);
      if Live(Step(h, s, e), g) {
        NoRevival(h, s, e, g);
      }
    }
  }

  lemma {:induction false} RunTiesByReport(h: EndpointsHash, events: seq<Event>, g: SessionId)
    ensures TiedByReport(Run(h, EMPTY, events), g, Reports(h, events, g))
    decreases |events|
  {
    if events != [] {
      var before, e := events[..|events| - 1], events[|events| - 1];
      RunTiesByReport(h, before, g);
      NextEventTies(h, before, e, g);
      assert before + [e] == events;
    }
  }

  lemma {:induction false} NextEventTies(h: EndpointsHash, before: seq<Event>, e: Event, g: SessionId)
    requires TiedByReport(Run(h, EMPTY, before), g, Reports(h, before, g))
    ensures TiedByReport(Run(h, EMPTY, before + [e]), g, Reports(h, before + [e], g))
  {
    RunDisciplined(h, before, g);
    if e == Updated(g) && g in Run(h, EMPTY, before).actions {
      OwnUpdateTies(h, before, g);
    } else {
      OtherEventTies(h, before, e, g);
    }
  }

  lemma {:induction false} OwnUpdateTies(h: EndpointsHash, before: seq<Event>, g: SessionId)
    requires g in Run(h, EMPTY, before).actions && Reports(h, before, g) == []
    ensures TiedByReport(Run(h, EMPTY, before + [Updated(g)]), g, Reports(h, before + [Updated(g)], g))
  {
    ActionIsOk(h, before, g);
    OwnReportTies(h, Run(h, EMPTY, before), g);
    ReportsLast(h, before, Updated(g), g);
  }

  lemma {:induction false} OtherEventTies(h: EndpointsHash, before: seq<Event>, e: Event, g: SessionId)
    requires var s := Run(h, EMPTY, before);
      (e == Updated(g) ==> g !in s.actions) && TiedByReport(s, g, Reports(h, before, g))
    ensures TiedByReport(Run(h, EMPTY, before + [e]), g, Reports(h, before + [e], g))
  {
    var s := Run(h, EMPTY, before);
    ReportsLast(h, before, e, g);
    if e != Updated(g) {
      Reachable(h, before);
      InvActions(h, s, g);
      OtherReportTies(h, s, e, g, Reports(h, before, g));
    }
  }

  lemma {:induction false} InvActions(h: EndpointsHash, s: State, g: SessionId)
    requires Inv(h, s)
    ensures g in s.actions ==> g < |s.sessions|
  {
  }

  /**
   Over any run, a stored session is stranded if and only if its get-action has
   reported an error.
   */
  lemma {:induction false} StrandedExactly(h: EndpointsHash, events: seq<Event>, g: SessionId)
    requires Live(Run(h, EMPTY, events), g)
    ensures Stranded(Run(h, EMPTY, events), g) <==> Reports(h, events, g) == [Error]
  {
    var s := Run(h, EMPTY, events);
    RunTiesByReport(h, events, g);
    RunDisciplined(h, events, g);
    LiveEntry(h, events, g);
  }

  lemma {:induction false} LiveEntry(h: EndpointsHash, events: seq<Event>, g: SessionId)
    requires Live(Run(h, EMPTY, events), g)
    ensures var s := Run(h, EMPTY, events); s.store[s.sessions[g].key].stream.upstream == s.sessions[g].upstream
  {
    var s := Run(h, EMPTY, events);
    Reachable(h, events);
    assert EntryOk(s.sessions[g].key, s.store[s.sessions[g].key], s.sessions);
  }

  // A device asks for server 7, which Aether does not know, and the resolver refuses.
  const REFUSED := [Packet(1, ToServerId(0, 7, []), 0), Updated(0), Updated(0), Refused(0), Updated(0)]

  /** This happens: the run strands its session. */
  lemma {:induction false} RefusedRunStrands(h: EndpointsHash)
    ensures Stranded(Run(h, EMPTY, REFUSED), 0)
  {
    var s1 := Step(h, EMPTY, REFUSED[0]);
    assert s1.actions == map[0 := Request(7, CheckServerExists, true, None)];
    assert |s1.sessions| == 1 && s1.sessions[0].key == Key(1, 0, 7) && s1.aether == map[];
    var s2 := Step(h, s1, REFUSED[1]);
    assert s2 == s1.(actions := map[0 := Request(7, RequestServer, true, None)]);
    var s3 := Step(h, s2, REFUSED[2]);
    assert s3 == s1.(actions := map[0 := Request(7, RequestServer, false, None)]);
    assert REFUSED[..3] + [Refused(0), Updated(0)] == REFUSED;
    RunThree(h, EMPTY, REFUSED[..3]);
    Reachable(h, REFUSED[..3]);
    RefusalStrands(h, s3, 0);
    RunBoth(h, EMPTY, REFUSED[..3], [Refused(0), Updated(0)]);
  }
}
