/** Sessions opened by endpoints share their stream with nobody. */
module Isolation {
  import opened Wire
  import opened GatewayModel
  import opened GatewayInvariant
  import opened GatewaySteps
  import opened FanOut

  /**
   In every reachable state, a stream used by a session opened by endpoints is
   used by no other session, is not in the cache, and received nothing from
   anybody else; a datum on it makes exactly one output, to that session.
   */
  lemma {:induction false} EndpointsAreIsolated(h: EndpointsHash, events: seq<Event>, key: Key, st: StreamRef,
                                                data: DataBuffer, now: TimePoint)
    requires var s := Run(h, EMPTY, events); TiedTo(s, key, st) && s.store[key].server.ByEndpoints?
    ensures var s := Run(h, EMPTY, events);
      && st < |s.streams|
      && (forall other :: TiedTo(s, other, st) ==> other == key)
      && (forall id :: id in s.cache ==> s.cache[id] != st)
      && (forall i :: 0 <= i < |s.streams[st].received| ==>
            s.streams[st].received[i].session == s.store[key].stream.id)
      && Step(h, s, Replied(st, data, now)).outputs == s.outputs + [ReplyTo(s, key, data)]
  {
    Reachable(h, events);
    var s := Run(h, EMPTY, events);
    OnlyListener(h, s, key, st);
    OneOutput(h, s, key, st, data, now);
  }

  lemma {:induction false} OneOutput(h: EndpointsHash, s: State, key: Key, st: StreamRef, data: DataBuffer,
                                     now: TimePoint)
    requires Inv(h, s) && TiedTo(s, key, st) && st < |s.streams| && s.streams[st].listeners == [s.store[key].stream.id]
    ensures Step(h, s, Replied(st, data, now)).outputs == s.outputs + [ReplyTo(s, key, data)]
  {
    ReplyIs(h, s, st, data, now);
    assert EntryOk(key, s.store[key], s.sessions);
    OneReply(s, key, data);
  }

  lemma {:induction false} OneReply(s: State, key: Key, data: DataBuffer)
    requires key in s.store && EntryOk(key, s.store[key], s.sessions)
    ensures RepliesTo(s.sessions, [s.store[key].stream.id], data) == [ReplyTo(s, key, data)]
  {
    assert [s.store[key].stream.id][1..] == [];
  }

  lemma {:induction false} TiedUses(h: EndpointsHash, s: State, g: SessionId, st: StreamRef)
    requires Inv(h, s) && g < |s.sessions| && s.sessions[g].upstream == Some(st)
    ensures StreamOf(s.sessions, s.actions, g) == Some(st)
  {
  }

  lemma {:induction false} SameUser(s: State, g: SessionId, g': SessionId)
    requires IsolationOk(s.sessions, s.actions, s.cache)
    requires g < |s.sessions| && g' < |s.sessions| && s.sessions[g].server.ByEndpoints?
    requires StreamOf(s.sessions, s.actions, g).Some?
    requires StreamOf(s.sessions, s.actions, g) == StreamOf(s.sessions, s.actions, g')
    ensures g == g'
  {
    assert !Apart(s.sessions, s.actions, g, g');
  }

  lemma {:induction false} FirstTwoDiffer(ids: seq<SessionId>)
    requires NoDuplicates(ids) && |ids| > 1
    ensures ids[0] != ids[1]
  {
  }

  lemma {:induction false} OnlyListener(h: EndpointsHash, s: State, key: Key, st: StreamRef)
    requires Inv(h, s) && TiedTo(s, key, st) && s.store[key].server.ByEndpoints?
    ensures st < |s.streams| && s.streams[st].listeners == [s.store[key].stream.id]
    ensures forall other :: TiedTo(s, other, st) ==> other == key
    ensures forall id :: id in s.cache ==> s.cache[id] != st
    ensures forall i :: 0 <= i < |s.streams[st].received| ==>
      s.streams[st].received[i].session == s.store[key].stream.id
  {
    var g := s.store[key].stream.id;
    assert EntryOk(key, s.store[key], s.sessions) && SessionOk(h, s.sessions[g], |s.streams|);
    TiedUses(h, s, g, st);
    forall other | TiedTo(s, other, st) ensures other == key {
      var g' := s.store[other].stream.id;
      assert EntryOk(other, s.store[other], s.sessions);
      TiedUses(h, s, g', st);
      SameUser(s, g, g');
    }
    forall i | 0 <= i < |s.streams[st].received| ensures s.streams[st].received[i].session == g {
      var g' := s.streams[st].received[i].session;
      assert ReceivedOk(s.streams[st].received, st, s.sessions);
      TiedUses(h, s, g', st);
      SameUser(s, g, g');
    }
    ListenersLive(s, st);
    var listeners := s.streams[st].listeners;
    forall i | 0 <= i < |listeners| ensures listeners[i] == g {
      assert Live(s, listeners[i]) && TiedTo(s, s.sessions[listeners[i]].key, st);
    }
    assert NoDuplicates(listeners) && g in listeners;
    if |listeners| > 1 {
      FirstTwoDiffer(listeners);
    }
  }
}
