/** Over any run: what clients sent, what went where, and when a session was last used. */
module Conservation {
  import opened Wire
  import opened GatewayModel
  import opened GatewayInvariant
  import opened GatewaySteps
  import opened Entries

  /** What was sent under a key since the session now under it was opened, read off the run. */
  ghost function InputSince(h: EndpointsHash, events: seq<Event>, key: Key): seq<Item>
    decreases |events|
  {
    if events == [] then []
    else
      var before := events[..|events| - 1];
      (if key in Run(h, EMPTY, before).store then InputSince(h, before, key) else [])
        + NewItems(h, events[|events| - 1], key)
  }

  lemma {:induction false} WrittenIsInput(h: EndpointsHash, events: seq<Event>, key: Key)
    requires key in Run(h, EMPTY, events).store
    ensures var s := Run(h, EMPTY, events);
      var g := s.store[key].stream.id;
      g < |s.sessions| && s.sessions[g].written == InputSince(h, events, key)
    decreases |events|
  {
    if events != [] {
      var before, e := events[..|events| - 1], events[|events| - 1];
      var s := Run(h, EMPTY, before);
      RunLast(h, EMPTY, events);
      Reachable(h, before);
      StepEntry(h, s, e, key);
      if key in s.store {
        WrittenIsInput(h, before, key);
      } else {
        assert [] + NewItems(h, e, key) == NewItems(h, e, key);
      }
    }
  }

  /**
   Everything sent under a key since it was opened has been passed on to the
   session's stream, in order, or still waits in its buffer, in order.
   */
  lemma {:induction false} Conserved(h: EndpointsHash, events: seq<Event>, key: Key)
    requires key in Run(h, EMPTY, events).store
    ensures var s := Run(h, EMPTY, events);
      var e := s.store[key].stream;
      InputSince(h, events, key) == Forwarded(s.streams, e.upstream, e.id) + e.buffer
  {
    var s := Run(h, EMPTY, events);
    Reachable(h, events);
    WrittenIsInput(h, events, key);
    assert EntryOk(key, s.store[key], s.sessions) && BufferOk(s.store[key].stream, s.sessions, s.streams);
  }

  /**
   What a server stream received is an interleaving of what its sessions wrote,
   also of sessions that are gone: every item belongs to a session tied to this
   stream, and the items of one session are the first ones it wrote, in order.
   */
  lemma {:induction false} Interleaved(h: EndpointsHash, events: seq<Event>, st: StreamRef, g: SessionId)
    requires st < |Run(h, EMPTY, events).streams| && g < |Run(h, EMPTY, events).sessions|
    ensures var s := Run(h, EMPTY, events);
      && (forall i :: 0 <= i < |s.streams[st].received| ==>
            var x := s.streams[st].received[i].session;
            x < |s.sessions| && s.sessions[x].upstream == Some(st))
      && Of(s.streams[st].received, g) <= s.sessions[g].written
      && (s.sessions[g].upstream != Some(st) ==> Of(s.streams[st].received, g) == [])
      && s.streams[st].sent <= |s.streams[st].received|
  {
    var s := Run(h, EMPTY, events);
    Reachable(h, events);
    assert ReceivedOk(s.streams[st].received, st, s.sessions);
    assert Forwarded(s.streams, s.sessions[g].upstream, g) <= s.sessions[g].written;
    if s.sessions[g].upstream != Some(st) {
      OfNobody(s.streams[st].received, g);
    }
  }

  /* ---- Time of last use ---- */

  /** The time of the latest input or output under a key, read off the run. */
  ghost function LatestUse(h: EndpointsHash, events: seq<Event>, key: Key): TimePoint
    decreases |events|
  {
    if events == [] then 0
    else
      var before := events[..|events| - 1];
      UsedAt(h, Run(h, EMPTY, before), events[|events| - 1], key, LatestUse(h, before, key))
  }

  lemma {:induction false} LastUsedIs(h: EndpointsHash, events: seq<Event>, key: Key)
    requires key in Run(h, EMPTY, events).store
    ensures Run(h, EMPTY, events).store[key].lastUsed == LatestUse(h, events, key)
    decreases |events|
  {
    if events != [] {
      var before, e := events[..|events| - 1], events[|events| - 1];
      RunLast(h, EMPTY, events);
      Reachable(h, before);
      StepEntry(h, Run(h, EMPTY, before), e, key);
      if key in Run(h, EMPTY, before).store {
        LastUsedIs(h, before, key);
      }
    }
  }

  // The clock never goes back.
  ghost predicate Timely(events: seq<Event>) {
    forall i, j :: 0 <= i < j < |events| && (events[i].Packet? || events[i].Replied?) && (events[j].Packet? || events[j].Replied?)
      ==> events[i].now <= events[j].now
  }

  lemma {:induction false} UseBounded(h: EndpointsHash, events: seq<Event>, key: Key, limit: TimePoint)
    requires forall i :: 0 <= i < |events| && (events[i].Packet? || events[i].Replied?) ==> events[i].now <= limit
    ensures LatestUse(h, events, key) <= limit
    decreases |events|
  {
    if events != [] {
      UseBounded(h, events[..|events| - 1], key, limit);
    }
  }

  /** Under a clock that never goes back, the time of last use of a stored session never decreases. */
  lemma {:induction false} LastUsedGrows(h: EndpointsHash, events: seq<Event>, key: Key)
    requires events != [] && Timely(events)
    requires key in Run(h, EMPTY, events[..|events| - 1]).store && key in Run(h, EMPTY, events).store
    ensures Run(h, EMPTY, events[..|events| - 1]).store[key].lastUsed <= Run(h, EMPTY, events).store[key].lastUsed
  {
    var before, e := events[..|events| - 1], events[|events| - 1];
    LastUsedIs(h, before, key);
    LastUsedIs(h, events, key);
    if e.Packet? || e.Replied? {
      UseBounded(h, before, key, e.now);
    }
  }
}
