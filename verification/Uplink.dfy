/** Over runs of the whole system: what devices sent, and what of it their sessions passed on. */
module Uplink {
  import opened Wire
  import opened GatewayModel
  import opened GatewayInvariant
  import opened GatewaySteps
  import opened FanOut
  import opened Entries
  import opened RightServer
  import opened BusModel
  import opened SystemModel
  import opened EndToEnd

  // What an event adds to what a device has sent under a key: one item for each attached port.
  ghost function SentNow<D, P>(h: EndpointsHash, y: System<D, P>, e: SystemEvent<D, P>, device: D,
                               key: Key): seq<Item> {
    if e.DeviceSends? && e.device == device && Registered(y, device)
       && MakeKey(h, y.ids[device], e.call.client, e.call.Wanted()) == key
    then Copies(Item(e.call.Wanted(), e.call.data), |y.bus.gateways|)
    else []
  }

  /** What a device has sent under a key since the session now under it was opened, read off the run. */
  ghost function SentSince<D, P>(h: EndpointsHash, events: seq<SystemEvent<D, P>>, device: D, key: Key): seq<Item>
    decreases |events|
  {
    if events == [] then []
    else
      var before := events[..|events| - 1];
      var y := SystemRun<D, P>(h, Start(), before);
      (if key in y.gateway.store then SentSince(h, before, device, key) else [])
        + SentNow(h, y, events[|events| - 1], device, key)
  }

  lemma {:induction false} FromLast<D, P>(h: EndpointsHash, events: seq<SystemEvent<D, P>>)
    requires events != []
    ensures SystemRun<D, P>(h, Start(), events) ==
            SystemStep(h, SystemRun<D, P>(h, Start(), events[..|events| - 1]), events[|events| - 1])
  {
    assert events[..|events| - 1] + [events[|events| - 1]] == events;
    SystemRunLast<D, P>(h, Start(), events[..|events| - 1], events[|events| - 1]);
  }

  lemma {:induction false} SystemIsOk<D, P>(h: EndpointsHash, events: seq<SystemEvent<D, P>>)
    ensures SystemOk(h, SystemRun<D, P>(h, Start(), events))
  {
    SystemRunKeeps<D, P>(h, Start(), events);
  }

  /* ---- One entry ---- */

  // What n packets do to the entry under a key, be it theirs or not.
  ghost predicate EntryGrows(s: State, t: State, key: Key, added: seq<Item>) {
    && WrittenUnder(t, key) == WrittenUnder(s, key) + added
    && (key in s.store ==> key in t.store && t.store[key].stream.id == s.store[key].stream.id)
  }

  lemma {:induction false} InputGrows(h: EndpointsHash, s: State, device: DeviceId, call: GatewayCall, now: TimePoint,
                                      key: Key)
    requires StoreOk(s.store, s.sessions)
    ensures EntryGrows(s, Input(h, s, device, call, now), key,
                       if MakeKey(h, device, call.client, call.Wanted()) == key
                       then [Item(call.Wanted(), call.data)] else [])
  {
    assert key in s.store ==> EntryOk(key, s.store[key], s.sessions);
    PacketEntry(h, s, Packet(device, call, now), key);
    InputSessions(h, s, device, call, now);
    if MakeKey(h, device, call.client, call.Wanted()) != key {
      OtherKey(h, s, device, call, now, key);
    }
  }

  // A packet opens no session under another key.
  lemma {:induction false} OtherKey(h: EndpointsHash, s: State, device: DeviceId, call: GatewayCall, now: TimePoint,
                                    key: Key)
    requires MakeKey(h, device, call.client, call.Wanted()) != key
    ensures key in Input(h, s, device, call, now).store <==> key in s.store
  {
    GetStreamFrame(s, call.Wanted());
  }

  lemma {:induction false} InputsGrow(h: EndpointsHash, s: State, n: nat, device: DeviceId, call: GatewayCall,
                                      now: TimePoint, key: Key)
    requires StoreOk(s.store, s.sessions)
    ensures EntryGrows(s, Inputs(h, s, n, device, call, now), key,
                       if MakeKey(h, device, call.client, call.Wanted()) == key
                       then Copies(Item(call.Wanted(), call.data), n) else [])
    decreases n
  {
    var own := MakeKey(h, device, call.client, call.Wanted()) == key;
    var item := Item(call.Wanted(), call.data);
    if n == 0 {
      assert WrittenUnder(s, key) + [] == WrittenUnder(s, key);
    } else {
      InputGrows(h, s, device, call, now, key);
      InputStore(h, s, device, call, now);
      InputsGrow(h, Input(h, s, device, call, now), n - 1, device, call, now, key);
      GrowsTwice(WrittenUnder(s, key), item, n, own);
    }
  }

  lemma {:induction false} GrowsTwice(written: seq<Item>, item: Item, n: nat, own: bool)
    requires n > 0
    ensures written + (if own then [item] else []) + (if own then Copies(item, n - 1) else []) ==
            written + (if own then Copies(item, n) else [])
  {
    if own {
      OneMoreCopy(written, item, n);
    }
  }

  // The entry under the key after an event is the one before it, or one the event opened.
  ghost predicate EntryFollows<D, P>(h: EndpointsHash, y: System<D, P>, z: System<D, P>, e: SystemEvent<D, P>,
                                     key: Key) {
    key in z.gateway.store ==>
      && z.gateway.store[key].stream.id < |z.senders|
      && (key in y.gateway.store ==> z.gateway.store[key].stream.id == y.gateway.store[key].stream.id)
      && WrittenUnder(z.gateway, key) ==
         WrittenUnder(y.gateway, key) + SentNow(h, y, e, z.senders[z.gateway.store[key].stream.id], key)
  }

  lemma {:induction false} EntrySender<D, P>(h: EndpointsHash, y: System<D, P>, key: Key)
    requires SystemOk(h, y) && key in y.gateway.store
    ensures y.gateway.store[key].stream.id < |y.senders|
    ensures var device := y.senders[y.gateway.store[key].stream.id]; device in y.ids && y.ids[device] == key.device
  {
    assert EntryOk(key, y.gateway.store[key], y.gateway.sessions);
    assert SenderOk(y, y.gateway.store[key].stream.id);
  }

  lemma {:induction false} SendFollows<D, P>(h: EndpointsHash, y: System<D, P>, device: D, call: GatewayCall,
                                             now: TimePoint,
                                             key: Key)
    requires SystemOk(h, y)
    ensures var e := DeviceSends(device, call, now); EntryFollows(h, y, SystemStep(h, y, e), e, key)
  {
    var e := DeviceSends(device, call, now);
    SenderAfter(h, y, e, key);
    SendFollowsIn(h, y, device, call, now, key);
  }

  lemma {:induction false} SendFollowsIn<D, P>(h: EndpointsHash, y: System<D, P>, device: D, call: GatewayCall,
                                               now: TimePoint, key: Key)
    requires StoreOk(y.gateway.store, y.gateway.sessions) && IdsOk(y.bus, y.ids)
    requires SenderKnown(SystemStep(h, y, DeviceSends(device, call, now)), key)
    ensures var e := DeviceSends(device, call, now); EntryFollows(h, y, SystemStep(h, y, e), e, key)
  {
    var e := DeviceSends(device, call, now);
    var z := SystemStep(h, y, e);
    if Registered(y, device) {
      InputsGrow(h, y.gateway, |y.bus.gateways|, y.ids[device], call, now, key);
      if key in z.gateway.store {
        SentBySender(h, y, z, e, key);
      }
    } else {
      assert WrittenUnder(y.gateway, key) + [] == WrittenUnder(y.gateway, key);
    }
  }

  // The device that opened a stored session has the id in its key.
  ghost predicate SenderKnown<D, P>(y: System<D, P>, key: Key) {
    key in y.gateway.store ==>
      && y.gateway.store[key].stream.id < |y.senders|
      && (var device := y.senders[y.gateway.store[key].stream.id]; device in y.ids && y.ids[device] == key.device)
  }

  lemma {:induction false} SenderAfter<D, P>(h: EndpointsHash, y: System<D, P>, e: SystemEvent<D, P>, key: Key)
    requires SystemOk(h, y)
    ensures SenderKnown(SystemStep(h, y, e), key)
  {
    SystemStepKeeps(h, y, e);
    var z := SystemStep(h, y, e);
    if key in z.gateway.store {
      EntrySender(h, z, key);
    }
  }

  // Who sends under a key is the device that opened the session there.
  lemma {:induction false} SentBySender<D, P>(h: EndpointsHash, y: System<D, P>, z: System<D, P>, e: SystemEvent<D,
                                              P>, key: Key)
    requires IdsOk(y.bus, y.ids) && e.DeviceSends? && Registered(y, e.device) && z.ids == y.ids
    requires key in z.gateway.store && z.gateway.store[key].stream.id < |z.senders|
    requires var device := z.senders[z.gateway.store[key].stream.id]; device in z.ids && z.ids[device] == key.device
    ensures SentNow(h, y, e, z.senders[z.gateway.store[key].stream.id], key) ==
            if MakeKey(h, y.ids[e.device], e.call.client, e.call.Wanted()) == key
            then Copies(Item(e.call.Wanted(), e.call.data), |y.bus.gateways|)
            else []
  {
  }

  lemma {:induction false} EventFollows<D, P>(h: EndpointsHash, y: System<D, P>, event: Event, key: Key)
    requires SystemOk(h, y) && !event.Packet?
    ensures var e := GatewayEvent(event); EntryFollows(h, y, SystemStep(h, y, e), e, key)
  {
    SenderAfter(h, y, GatewayEvent(event), key);
    StepEntry(h, y.gateway, event, key);
    EventFollowsIn(h, y, event, key);
  }

  lemma {:induction false} EventFollowsIn<D, P>(h: EndpointsHash, y: System<D, P>, event: Event, key: Key)
    requires !event.Packet? && SenderKnown(SystemStep(h, y, GatewayEvent(event)), key)
    requires var s, t := y.gateway, Step(h, y.gateway, event);
      && (key in s.store && key in t.store ==> s.store[key].stream.id < |s.sessions| && Continues(h, s, t, event, key))
      && (key !in s.store && key in t.store ==> Begins(h, s, t, event, key))
    ensures var e := GatewayEvent(event); EntryFollows(h, y, SystemStep(h, y, e), e, key)
  {
    assert WrittenUnder(y.gateway, key) + [] == WrittenUnder(y.gateway, key);
  }

  lemma {:induction false} StepFollows<D, P>(h: EndpointsHash, y: System<D, P>, e: SystemEvent<D, P>, key: Key)
    requires SystemOk(h, y)
    ensures EntryFollows(h, y, SystemStep(h, y, e), e, key)
  {
    match e
    case DeviceSends(device, call, now) => SendFollows(h, y, device, call, now, key);
    case GatewayEvent(event) =>
      if !event.Packet? {
        EventFollows(h, y, event, key);
      } else {
        NothingFollows(h, y, e, key);
      }
    case _ => NothingFollows(h, y, e, key);
  }

  lemma {:induction false} NothingFollows<D, P>(h: EndpointsHash, y: System<D, P>, e: SystemEvent<D, P>, key: Key)
    requires SystemOk(h, y) && SystemStep(h, y, e).gateway == y.gateway && SystemStep(h, y, e).senders == y.senders
    requires !e.DeviceSends?
    ensures EntryFollows(h, y, SystemStep(h, y, e), e, key)
  {
    if key in y.gateway.store {
      EntrySender(h, y, key);
      assert WrittenUnder(y.gateway, key) + [] == WrittenUnder(y.gateway, key);
    }
  }

  // The sender of a session never changes.
  lemma {:induction false} SendersStay<D, P>(h: EndpointsHash, y: System<D, P>, e: SystemEvent<D, P>)
    ensures y.senders <= SystemStep(h, y, e).senders
  {
  }

  lemma {:induction false} WrittenIsSent<D, P>(h: EndpointsHash, events: seq<SystemEvent<D, P>>, key: Key)
    requires key in SystemRun<D, P>(h, Start(), events).gateway.store
    ensures var y := SystemRun<D, P>(h, Start(), events);
      && y.gateway.store[key].stream.id < |y.senders|
      && WrittenUnder(y.gateway, key) == SentSince(h, events, y.senders[y.gateway.store[key].stream.id], key)
    decreases |events|
  {
    if events != [] {
      var before, e := events[..|events| - 1], events[|events| - 1];
      var y := SystemRun<D, P>(h, Start(), before);
      FromLast(h, events);
      SystemIsOk(h, before);
      StepFollows(h, y, e, key);
      SendersStay(h, y, e);
      if key in y.gateway.store {
        WrittenIsSent(h, before, key);
      }
    }
  }

  /**
   Over any run of devices, ports and gateway, for each stored session: what the
   device that opened it has sent under its key since, once for each attached port,
   is what its stream received from it followed by what it still buffers, in order.
   */
  lemma {:induction false} UplinkConserved<D, P>(h: EndpointsHash, events: seq<SystemEvent<D, P>>, key: Key)
    requires key in SystemRun<D, P>(h, Start(), events).gateway.store
    ensures var y := SystemRun<D, P>(h, Start(), events); var e := y.gateway.store[key].stream;
      && e.id < |y.senders|
      && SentSince(h, events, y.senders[e.id], key) == Forwarded(y.gateway.streams, e.upstream, e.id) + e.buffer
  {
    WrittenIsSent(h, events, key);
    SystemIsOk(h, events);
    BufferedAndForwarded(h, SystemRun<D, P>(h, Start(), events).gateway, key);
  }

  lemma {:induction false} BufferedAndForwarded(h: EndpointsHash, s: State, key: Key)
    requires Inv(h, s) && key in s.store
    ensures var e := s.store[key].stream; WrittenUnder(s, key) == Forwarded(s.streams, e.upstream, e.id) + e.buffer
  {
    assert EntryOk(key, s.store[key], s.sessions) && BufferOk(s.store[key].stream, s.sessions, s.streams);
  }

  /* ---- Where an item comes from ---- */

  // Sessions keep their keys and what was written to them; what was added is this item, under this key.
  ghost predicate OnlyAdds(s: seq<Session>, t: seq<Session>, key: Key, item: Item) {
    && |s| <= |t|
    && (forall x :: 0 <= x < |s| ==> t[x].key == s[x].key && s[x].written <= t[x].written)
    && (forall x, j :: 0 <= x < |t| && 0 <= j < |t[x].written| && (x < |s| ==> j >= |s[x].written|) ==>
          t[x].written[j] == item && t[x].key == key)
  }

  lemma {:induction false} OnlyAddsTwice(s: seq<Session>, t: seq<Session>, u: seq<Session>, key: Key, item: Item)
    requires OnlyAdds(s, t, key, item) && OnlyAdds(t, u, key, item)
    ensures OnlyAdds(s, u, key, item)
  {
    forall x, j | 0 <= x < |u| && 0 <= j < |u[x].written| && (x < |s| ==> j >= |s[x].written|)
      ensures u[x].written[j] == item && u[x].key == key
    {
      if x < |t| && j < |t[x].written| {
        assert t[x].written[j] == item && t[x].key == key;
      }
    }
  }

  lemma {:induction false} OpenAdds(s: State, key: Key, want: ServeKind, now: TimePoint, item: Item)
    ensures OnlyAdds(s.sessions, OpenStream(s, key, want, now).sessions, key, item)
  {
    GetStreamFrame(s, want);
  }

  lemma {:induction false} WriteAdds(s: State, key: Key, item: Item)
    requires StoreOk(s.store, s.sessions)
    ensures OnlyAdds(s.sessions, Write(s, key, item).sessions, key, item)
  {
    assert key in s.store ==> EntryOk(key, s.store[key], s.sessions);
  }

  lemma {:induction false} InputAdds(h: EndpointsHash, s: State, device: DeviceId, call: GatewayCall, now: TimePoint)
    requires StoreOk(s.store, s.sessions)
    ensures OnlyAdds(s.sessions, Input(h, s, device, call, now).sessions,
                     MakeKey(h, device, call.client, call.Wanted()), Item(call.Wanted(), call.data))
  {
    var want := call.Wanted();
    var key, item := MakeKey(h, device, call.client, want), Item(want, call.data);
    var s1 := OpenStream(s, key, want, now);
    OpenAdds(s, key, want, now, item);
    OpenKeepsStore(s, key, want, now);
    WriteAdds(s1, key, item);
    OnlyAddsTwice(s.sessions, s1.sessions, Write(s1, key, item).sessions, key, item);
  }

  lemma {:induction false} InputsAdd(h: EndpointsHash, s: State, n: nat, device: DeviceId, call: GatewayCall,
                                     now: TimePoint)
    requires StoreOk(s.store, s.sessions)
    ensures OnlyAdds(s.sessions, Inputs(h, s, n, device, call, now).sessions,
                     MakeKey(h, device, call.client, call.Wanted()), Item(call.Wanted(), call.data))
    decreases n
  {
    if n > 0 {
      var t := Input(h, s, device, call, now);
      InputAdds(h, s, device, call, now);
      InputStore(h, s, device, call, now);
      InputsAdd(h, t, n - 1, device, call, now);
      OnlyAddsTwice(s.sessions, t.sessions, Inputs(h, s, n, device, call, now).sessions,
                    MakeKey(h, device, call.client, call.Wanted()), Item(call.Wanted(), call.data));
    }
  }

  // No other event writes anything.
  lemma {:induction false} QuietlyWritten(h: EndpointsHash, s: State, event: Event)
    requires Inv(h, s) && !event.Packet?
    ensures var t := Step(h, s, event);
      && |t.sessions| == |s.sessions|
      && (forall x :: 0 <= x < |s.sessions| ==>
            t.sessions[x].key == s.sessions[x].key && t.sessions[x].written == s.sessions[x].written)
  {
    StepOutputs(h, s, event);
    if event.Replied? {
      StreamEventFrame(h, s, event);
    } else {
      QuietUntouched(h, s, event);
    }
  }

  /** The k-th event of a run: a registered device sends this item under this key. */
  ghost predicate SentAt<D, P>(h: EndpointsHash, events: seq<SystemEvent<D, P>>, k: nat, device: D, key: Key,
                               item: Item) {
    && k < |events| && events[k].DeviceSends? && events[k].device == device
    && (var y := SystemRun<D, P>(h, Start(), events[..k]);
        && Registered(y, device)
        && MakeKey(h, y.ids[device], events[k].call.client, events[k].call.Wanted()) == key
        && Item(events[k].call.Wanted(), events[k].call.data) == item)
  }

  // An item the last event wrote is one it sent, from the device that opened the session.
  lemma {:induction false} WrittenNow<D, P>(h: EndpointsHash, y: System<D, P>, e: SystemEvent<D, P>, x: SessionId,
                                            j: nat)
    requires SystemOk(h, y)
    requires var z := SystemStep(h, y, e);
      x < |z.gateway.sessions| && j < |z.gateway.sessions[x].written|
      && (x < |y.gateway.sessions| ==> j >= |y.gateway.sessions[x].written|)
    ensures var z := SystemStep(h, y, e);
      && x < |z.senders| && e.DeviceSends? && e.device == z.senders[x] && Registered(y, e.device)
      && MakeKey(h, y.ids[e.device], e.call.client, e.call.Wanted()) == z.gateway.sessions[x].key
      && Item(e.call.Wanted(), e.call.data) == z.gateway.sessions[x].written[j]
  {
    match e
    case DeviceSends(device, call, now) =>
      SessionSender(h, y, e, x);
      SendWritten(h, y, device, call, now, x, j);
    case GatewayEvent(event) =>
      if !event.Packet? {
        QuietlyWritten(h, y.gateway, event);
      }
    case _ =>
  }

  lemma {:induction false} SendWritten<D, P>(h: EndpointsHash, y: System<D, P>, device: D, call: GatewayCall,
                                             now: TimePoint, x: SessionId, j: nat)
    requires StoreOk(y.gateway.store, y.gateway.sessions) && IdsOk(y.bus, y.ids)
    requires var z := SystemStep(h, y, DeviceSends(device, call, now));
      && x < |z.gateway.sessions| && j < |z.gateway.sessions[x].written|
      && (x < |y.gateway.sessions| ==> j >= |y.gateway.sessions[x].written|)
      && x < |z.senders| && z.senders[x] in z.ids && z.ids[z.senders[x]] == z.gateway.sessions[x].key.device
    ensures var z := SystemStep(h, y, DeviceSends(device, call, now));
      && Registered(y, device) && device == z.senders[x]
      && MakeKey(h, y.ids[device], call.client, call.Wanted()) == z.gateway.sessions[x].key
      && Item(call.Wanted(), call.data) == z.gateway.sessions[x].written[j]
  {
    if Registered(y, device) {
      var z := SystemStep(h, y, DeviceSends(device, call, now));
      InputsAdd(h, y.gateway, |y.bus.gateways|, y.ids[device], call, now);
      assert z.gateway == Inputs(h, y.gateway, |y.bus.gateways|, y.ids[device], call, now) && z.ids == y.ids;
      assert z.gateway.sessions[x].written[j] == Item(call.Wanted(), call.data);
      assert z.gateway.sessions[x].key == MakeKey(h, y.ids[device], call.client, call.Wanted());
      DifferentIds(y, device, z.senders[x]);
    }
  }

  lemma {:induction false} DifferentIds<D, P>(y: System<D, P>, device: D, other: D)
    requires IdsOk(y.bus, y.ids) && device in y.ids && other in y.ids && y.ids[device] == y.ids[other]
    ensures device == other
  {
  }

  lemma {:induction false} SessionSender<D, P>(h: EndpointsHash, y: System<D, P>, e: SystemEvent<D, P>, x: SessionId)
    requires SystemOk(h, y) && x < |SystemStep(h, y, e).gateway.sessions|
    ensures var z := SystemStep(h, y, e);
      x < |z.senders| && z.senders[x] in z.ids && z.ids[z.senders[x]] == z.gateway.sessions[x].key.device
  {
    SystemStepKeeps(h, y, e);
    assert SenderOk(SystemStep(h, y, e), x);
  }

  // What a session had keeps its key and its sender.
  lemma {:induction false} SessionsStay<D, P>(h: EndpointsHash, y: System<D, P>, e: SystemEvent<D, P>, x: SessionId)
    requires SystemOk(h, y) && x < |y.gateway.sessions|
    ensures var z := SystemStep(h, y, e);
      && x < |z.gateway.sessions| && x < |y.senders| && x < |z.senders| && z.senders[x] == y.senders[x]
      && z.gateway.sessions[x].key == y.gateway.sessions[x].key
      && y.gateway.sessions[x].written <= z.gateway.sessions[x].written
  {
    match e
    case DeviceSends(device, call, now) =>
      if Registered(y, device) {
        InputsAdd(h, y.gateway, |y.bus.gateways|, y.ids[device], call, now);
      }
    case GatewayEvent(event) =>
      if !event.Packet? {
        QuietlyWritten(h, y.gateway, event);
      }
    case _ =>
  }

  lemma {:induction false} WrittenWasSent<D, P>(h: EndpointsHash, events: seq<SystemEvent<D, P>>, x: SessionId, j: nat)
    returns (k: nat)
    requires var s := SystemRun<D, P>(h, Start(), events).gateway; x < |s.sessions| && j < |s.sessions[x].written|
    ensures var y := SystemRun<D, P>(h, Start(), events);
      && x < |y.senders|
      && SentAt(h, events, k, y.senders[x], y.gateway.sessions[x].key, y.gateway.sessions[x].written[j])
    decreases |events|
  {
    var before, e := events[..|events| - 1], events[|events| - 1];
    var y := SystemRun<D, P>(h, Start(), before);
    FromLast(h, events);
    SystemIsOk(h, before);
    if x < |y.gateway.sessions| && j < |y.gateway.sessions[x].written| {
      k := WrittenWasSent(h, before, x, j);
      SessionsStay(h, y, e, x);
      assert events[..k] == before[..k];
    } else {
      WrittenNow(h, y, e, x, j);
      k := |events| - 1;
    }
  }

  /**
   Over any run, every item a server stream has received was sent by the device
   that opened the session it belongs to, under that session's key, while the
   device was registered.
   */
  lemma {:induction false} ReceivedWasSent<D, P>(h: EndpointsHash, events: seq<SystemEvent<D, P>>, st: StreamRef,
                                                i: nat)
    returns (k: nat)
    requires var s := SystemRun<D, P>(h, Start(), events).gateway; st < |s.streams| && i < |s.streams[st].received|
    ensures var y := SystemRun<D, P>(h, Start(), events); var x := y.gateway.streams[st].received[i].session;
      && x < |y.senders| && x < |y.gateway.sessions|
      && SentAt(h, events, k, y.senders[x], y.gateway.sessions[x].key, y.gateway.streams[st].received[i].item)
  {
    SystemIsOk(h, events);
    var j := ReceivedWritten(h, SystemRun<D, P>(h, Start(), events).gateway, st, i);
    k := WrittenWasSent(h, events, SystemRun<D, P>(h, Start(), events).gateway.streams[st].received[i].session, j);
  }

  lemma {:induction false} ReceivedWritten(h: EndpointsHash, s: State, st: StreamRef, i: nat) returns (j: nat)
    requires Inv(h, s) && st < |s.streams| && i < |s.streams[st].received|
    ensures var t := s.streams[st].received[i];
      t.session < |s.sessions| && j < |s.sessions[t.session].written| && s.sessions[t.session].written[j] == t.item
  {
    var t := s.streams[st].received[i];
    assert ReceivedOk(s.streams[st].received, st, s.sessions);
    assert Forwarded(s.streams, s.sessions[t.session].upstream, t.session) <= s.sessions[t.session].written;
    OfMember(s.streams[st].received, i);
    j :| 0 <= j < |s.sessions[t.session].written| && s.sessions[t.session].written[j] == t.item;
  }
}
