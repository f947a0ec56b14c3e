/** Devices, bus, ports and gateway together: who receives what. */
module EndToEnd {
  import opened Wire
  import opened GatewayModel
  import opened GatewayInvariant
  import opened GatewaySteps
  import opened FanOut
  import opened Entries
  import opened BusModel
  import opened SystemModel

  // Ids are distinct and handed out already, and a live id leads to the device it was given to.
  ghost predicate IdsOk<D, P>(bus: Bus<D, P>, ids: map<D, DeviceId>) {
    && 1 <= bus.nextId <= ID_LIMIT
    && (forall d :: d in ids ==> 1 <= ids[d] < bus.nextId)
    && (forall d, d' :: d in ids && d' in ids && ids[d] == ids[d'] ==> d == d')
    && (forall id :: id in bus.devices ==> bus.devices[id] in ids && ids[bus.devices[id]] == id)
  }

  // The device that opened a session has the id in the session's key.
  ghost predicate SenderOk<D, P>(y: System<D, P>, g: SessionId)
    requires g < |y.gateway.sessions| && g < |y.senders|
  {
    y.senders[g] in y.ids && y.ids[y.senders[g]] == y.gateway.sessions[g].key.device
  }

  // A call was delivered to the device that opened its session, for the client of that session.
  ghost predicate DeliveryOk<D, P>(y: System<D, P>, d: Delivery<D>) {
    && d.session < |y.senders| && d.session < |y.gateway.sessions|
    && d.device == y.senders[d.session]
    && d.call.client == y.gateway.sessions[d.session].key.client
  }

  ghost predicate SendersOk<D, P>(y: System<D, P>) {
    && IdsOk(y.bus, y.ids)
    && |y.senders| == |y.gateway.sessions|
    && (forall g :: 0 <= g < |y.senders| ==> SenderOk(y, g))
  }

  ghost predicate SystemOk<D, P>(h: EndpointsHash, y: System<D, P>) {
    && Inv(h, y.gateway)
    && SendersOk(y)
    && DeliveriesOk(y)
  }

  ghost predicate DeliveriesOk<D, P>(y: System<D, P>) {
    forall i :: 0 <= i < |y.delivered| ==> DeliveryOk(y, y.delivered[i])
  }

  /* ---- Uplink ---- */

  // One packet opens at most one session, under the packet's own key.
  lemma {:induction false} InputSessions(h: EndpointsHash, s: State, device: DeviceId, call: GatewayCall,
                                         now: TimePoint)
    requires StoreOk(s.store, s.sessions)
    ensures var t := Input(h, s, device, call, now); var key := MakeKey(h, device, call.client, call.Wanted());
      && |t.sessions| == |s.sessions| + (if key in s.store then 0 else 1)
      && (forall g :: 0 <= g < |s.sessions| ==> t.sessions[g].key == s.sessions[g].key)
      && (key !in s.store ==> t.sessions[|s.sessions|].key == key)
      && key in t.store && t.outputs == s.outputs
  {
    var want := call.Wanted();
    GetStreamFrame(s, want);
  }

  lemma {:induction false} OpenKeepsStore(s: State, key: Key, want: ServeKind, now: TimePoint)
    requires StoreOk(s.store, s.sessions)
    ensures var t := OpenStream(s, key, want, now); StoreOk(t.store, t.sessions)
  {
    GetStreamFrame(s, want);
    var t := OpenStream(s, key, want, now);
    forall k | k in t.store ensures EntryOk(k, t.store[k], t.sessions) {
      assert k in s.store ==> EntryOk(k, s.store[k], s.sessions);
    }
  }

  lemma {:induction false} WriteKeepsStore(s: State, key: Key, item: Item)
    requires StoreOk(s.store, s.sessions)
    ensures var t := Write(s, key, item); StoreOk(t.store, t.sessions)
  {
    var t := Write(s, key, item);
    forall k | k in t.store ensures EntryOk(k, t.store[k], t.sessions) {
      assert EntryOk(k, s.store[k], s.sessions);
    }
  }

  lemma {:induction false} InputStore(h: EndpointsHash, s: State, device: DeviceId, call: GatewayCall, now: TimePoint)
    requires StoreOk(s.store, s.sessions)
    ensures var t := Input(h, s, device, call, now); StoreOk(t.store, t.sessions)
  {
    var want := call.Wanted();
    var key := MakeKey(h, device, call.client, want);
    OpenKeepsStore(s, key, want, now);
    WriteKeepsStore(OpenStream(s, key, want, now), key, Item(want, call.data));
  }

  lemma {:induction false} InputsSessions(h: EndpointsHash, s: State, n: nat, device: DeviceId, call: GatewayCall,
                                          now: TimePoint)
    requires StoreOk(s.store, s.sessions)
    ensures var t := Inputs(h, s, n, device, call, now); var key := MakeKey(h, device, call.client, call.Wanted());
      && |t.sessions| == |s.sessions| + (if n == 0 || key in s.store then 0 else 1)
      && (forall g :: 0 <= g < |s.sessions| ==> t.sessions[g].key == s.sessions[g].key)
      && (|t.sessions| > |s.sessions| ==> t.sessions[|s.sessions|].key == key)
    decreases n
  {
    if n > 0 {
      InputSessions(h, s, device, call, now);
      InputStore(h, s, device, call, now);
      InputsSessions(h, Input(h, s, device, call, now), n - 1, device, call, now);
      NextInputs(h, s, n - 1, device, call, now);
    }
  }

  // For the gateway, a packet published to n ports is a run of n packets.
  lemma {:induction false} InputsAreARun(h: EndpointsHash, s: State, n: nat, device: DeviceId, call: GatewayCall,
                                         now: TimePoint)
    ensures Inputs(h, s, n, device, call, now) == Run(h, s, Packets(n, Packet(device, call, now)))
    decreases n
  {
    if n > 0 {
      InputsAreARun(h, Input(h, s, device, call, now), n - 1, device, call, now);
      assert Packets(n, Packet(device, call, now))[1..] == Packets(n - 1, Packet(device, call, now));
    }
  }

  lemma {:induction false} InputsKeep(h: EndpointsHash, s: State, n: nat, device: DeviceId, call: GatewayCall,
                                      now: TimePoint)
    requires Inv(h, s)
    ensures Inv(h, Inputs(h, s, n, device, call, now))
  {
    InputsAreARun(h, s, n, device, call, now);
    RunKeeps(h, s, Packets(n, Packet(device, call, now)));
  }

  /* ---- Downlink ---- */

  lemma {:induction false} PublishedIs<D, P>(b: Bus<D, P>, o: Output, n: nat)
    ensures o.device !in b.devices ==> Published(b, o, n) == []
    ensures o.device in b.devices ==>
      && |Published(b, o, n)| == n
      && (forall i :: 0 <= i < n ==> Published(b, o, n)[i] == Delivery(b.devices[o.device], o.call, o.session))
  {
    if n > 0 {
      PublishedIs(b, o, n - 1);
    }
  }

  lemma {:induction false} PublishedFrom<D, P>(b: Bus<D, P>, outputs: seq<Output>, i: nat) returns (j: nat)
    requires i < |PublishedAll(b, outputs)|
    ensures j < |outputs| && outputs[j].device in b.devices
    ensures PublishedAll(b, outputs)[i] == Delivery(b.devices[outputs[j].device], outputs[j].call, outputs[j].session)
    decreases |outputs|
  {
    PublishedIs(b, outputs[0], |b.gateways|);
    var first := |Published(b, outputs[0], |b.gateways|)|;
    if i < first {
      j := 0;
    } else {
      j := PublishedFrom(b, outputs[1..], i - first);
      j := j + 1;
    }
  }

  // Where the new outputs of an event come from.
  ghost predicate OutputOk(s: State, o: Output) {
    && o.session < |s.sessions|
    && o.device == s.sessions[o.session].key.device
    && o.call.client == s.sessions[o.session].key.client
  }

  ghost predicate OutputsOk(s: State, outputs: seq<Output>) {
    forall i :: 0 <= i < |outputs| ==> OutputOk(s, outputs[i])
  }

  lemma {:induction false} QuietOutputs(h: EndpointsHash, s: State, e: Event)
    requires Inv(h, s) && !e.Packet? && !e.Replied?
    ensures Step(h, s, e).outputs == s.outputs
  {
    if e.LinkChanged? {
      LinkOutputs(h, s, e.stream, e.link);
    } else {
      OwnOutputs(h, s, e);
    }
  }

  lemma {:induction false} LinkOutputs(h: EndpointsHash, s: State, st: StreamRef, link: LinkState)
    requires Inv(h, s)
    ensures SetLink(s, st, link).outputs == s.outputs
  {
    if st < |s.streams| {
      if link == LinkError {
        LinkErrorIs(h, s, st);
      } else {
        LinkHealthyIs(h, s, st, link);
      }
    }
  }

  lemma {:induction false} OwnOutputs(h: EndpointsHash, s: State, e: Event)
    requires !e.Packet? && !e.Replied? && !e.LinkChanged?
    ensures Step(h, s, e).outputs == s.outputs
  {
  }

  // What an event that is no packet does to the outputs and the keys.
  ghost predicate OutputStep(s: State, t: State) {
    && s.outputs <= t.outputs
    && t.outputs == s.outputs + NewOutputs(s, t)
    && OutputsOk(s, NewOutputs(s, t))
    && |t.sessions| == |s.sessions|
    && (forall g :: 0 <= g < |s.sessions| ==> t.sessions[g].key == s.sessions[g].key)
  }

  lemma {:induction false} RepliesOk(s: State, st: StreamRef, data: DataBuffer, made: seq<Output>)
    requires ExactReplies(s, st, data, made)
    ensures OutputsOk(s, made)
  {
  }

  lemma {:induction false} ReplyStep(h: EndpointsHash, s: State, st: StreamRef, data: DataBuffer, now: TimePoint)
    requires Inv(h, s)
    ensures OutputStep(s, Reply(s, st, data, now))
  {
    if st < |s.streams| {
      ReplyIs(h, s, st, data, now);
      FanOutIn(h, s, st, data, now);
      RepliesOk(s, st, data, Reply(s, st, data, now).outputs[|s.outputs|..]);
    }
  }

  lemma {:induction false} StepOutputs(h: EndpointsHash, s: State, e: Event)
    requires Inv(h, s) && !e.Packet?
    ensures OutputStep(s, Step(h, s, e))
  {
    if e.Replied? {
      ReplyStep(h, s, e.stream, e.data, e.now);
    } else {
      QuietOutputs(h, s, e);
      QuietKeys(h, s, e);
    }
  }

  lemma {:induction false} QuietKeys(h: EndpointsHash, s: State, e: Event)
    requires Inv(h, s) && !e.Packet? && !e.Replied?
    ensures var t := Step(h, s, e);
      |t.sessions| == |s.sessions| && forall g :: 0 <= g < |s.sessions| ==> t.sessions[g].key == s.sessions[g].key
  {
    if e.LinkChanged? {
      StreamEventFrame(h, s, e);
    } else {
      OwnKeys(h, s, e);
    }
  }

  lemma {:induction false} OwnKeys(h: EndpointsHash, s: State, e: Event)
    requires !e.Packet? && !e.Replied? && !e.LinkChanged?
    ensures var t := Step(h, s, e);
      |t.sessions| == |s.sessions| && forall g :: 0 <= g < |s.sessions| ==> t.sessions[g].key == s.sessions[g].key
  {
    match e
    case Updated(g) => UpdateKeys(s, g);
    case Answered(g, servers) =>
    case _ =>
  }

  lemma {:induction false} UpdateKeys(s: State, g: SessionId)
    ensures var t := UpdateAction(s, g);
      |t.sessions| == |s.sessions| && forall g :: 0 <= g < |s.sessions| ==> t.sessions[g].key == s.sessions[g].key
  {
    if g in s.actions && s.actions[g].Request? && s.actions[g].id in s.aether {
      ResolveFrame(s, g, s.actions[g].id, s.aether[s.actions[g].id]);
    }
  }

  // A published call reaches the device that opened its session, or nobody.
  lemma {:induction false} PublishedToSender<D, P>(y: System<D, P>, outputs: seq<Output>, i: nat)
    requires SendersOk(y) && i < |PublishedAll(y.bus, outputs)|
    requires OutputsOk(y.gateway, outputs)
    ensures DeliveryOk(y, PublishedAll(y.bus, outputs)[i])
    ensures Registered(y, PublishedAll(y.bus, outputs)[i].device)
  {
    var j := PublishedFrom(y.bus, outputs, i);
    var o := outputs[j];
    assert OutputOk(y.gateway, o) && SenderOk(y, o.session);
    var device := y.bus.devices[o.device];
    assert y.ids[device] == o.device == y.ids[y.senders[o.session]];
  }

  /* ---- Runs ---- */

  // The keys of old sessions stay, and one session may be added.
  ghost predicate KeysKept(s: State, t: State) {
    && |s.sessions| <= |t.sessions|
    && (forall g :: 0 <= g < |s.sessions| ==> t.sessions[g].key == s.sessions[g].key)
  }

  lemma {:induction false} DeliveriesStay<D, P>(y: System<D, P>, z: System<D, P>)
    requires forall i :: 0 <= i < |y.delivered| ==> DeliveryOk(y, y.delivered[i])
    requires KeysKept(y.gateway, z.gateway) && y.senders <= z.senders
    ensures forall i :: 0 <= i < |y.delivered| ==> DeliveryOk(z, y.delivered[i])
  {
    forall i | 0 <= i < |y.delivered| ensures DeliveryOk(z, y.delivered[i]) {
      assert DeliveryOk(y, y.delivered[i]);
    }
  }

  lemma {:induction false} SendKeepsSenders<D, P>(h: EndpointsHash, y: System<D, P>, device: D, call: GatewayCall,
                                                now: TimePoint)
    requires SendersOk(y) && StoreOk(y.gateway.store, y.gateway.sessions) && Registered(y, device)
    ensures var z := SystemStep(h, y, DeviceSends(device, call, now));
      SendersOk(z) && KeysKept(y.gateway, z.gateway) && y.senders <= z.senders
  {
    SendIs(h, y, device, y.ids[device], call, now);
    InputsSessions(h, y.gateway, |y.bus.gateways|, y.ids[device], call, now);
    SenderJoins(y, device, Inputs(h, y.gateway, |y.bus.gateways|, y.ids[device], call, now));
  }

  // The sender of a session that was opened is remembered.
  lemma {:induction false} SenderJoins<D, P>(y: System<D, P>, device: D, s: State)
    requires SendersOk(y) && Registered(y, device)
    requires KeysKept(y.gateway, s) && |s.sessions| <= |y.gateway.sessions| + 1
    requires |s.sessions| > |y.gateway.sessions| ==> s.sessions[|y.gateway.sessions|].key.device == y.ids[device]
    ensures SendersOk(y.(gateway := s,
                         senders := if |s.sessions| > |y.gateway.sessions| then y.senders + [device] else y.senders))
  {
    var z := y.(gateway := s,
                senders := if |s.sessions| > |y.gateway.sessions| then y.senders + [device] else y.senders);
    forall g | 0 <= g < |z.senders| ensures SenderOk(z, g) {
      if g < |y.senders| {
        assert SenderOk(y, g);
      }
    }
  }

  lemma {:induction false} SendKeepsSystem<D, P>(h: EndpointsHash, y: System<D, P>, device: D, call: GatewayCall,
                                                now: TimePoint)
    requires SystemOk(h, y)
    ensures SystemOk(h, SystemStep(h, y, DeviceSends(device, call, now)))
  {
    if Registered(y, device) {
      SendKeepsSenders(h, y, device, call, now);
      DeliveriesStay(y, SystemStep(h, y, DeviceSends(device, call, now)));
      InputsKeep(h, y.gateway, |y.bus.gateways|, y.ids[device], call, now);
    }
  }

  // Outputs made for known sessions are delivered to the devices that opened them.
  lemma {:induction false} PublishKeepsSenders<D, P>(y: System<D, P>, z: System<D, P>, made: seq<Output>)
    requires SendersOk(y) && DeliveriesOk(y)
    requires z == y.(gateway := z.gateway, delivered := y.delivered + PublishedAll(y.bus, made))
    requires KeysKept(y.gateway, z.gateway) && |z.gateway.sessions| == |y.gateway.sessions|
    requires OutputsOk(y.gateway, made)
    ensures SendersOk(z) && DeliveriesOk(z)
  {
    forall g | 0 <= g < |z.senders| ensures SenderOk(z, g) {
      assert SenderOk(y, g);
    }
    DeliveriesStay(y, z);
    forall i | |y.delivered| <= i < |z.delivered| ensures DeliveryOk(z, z.delivered[i]) {
      PublishedToSender(y, made, i - |y.delivered|);
      assert DeliveryOk(y, z.delivered[i]);
    }
  }

  lemma {:induction false} GatewayKeepsSenders<D, P>(h: EndpointsHash, y: System<D, P>, e: Event)
    requires SendersOk(y) && DeliveriesOk(y) && !e.Packet? && OutputStep(y.gateway, Step(h, y.gateway, e))
    ensures var z := SystemStep(h, y, GatewayEvent(e)); SendersOk(z) && DeliveriesOk(z)
  {
    var z := SystemStep(h, y, GatewayEvent(e));
    PublishKeepsSenders(y, z, NewOutputs(y.gateway, z.gateway));
  }

  lemma {:induction false} GatewayKeepsInv<D, P>(h: EndpointsHash, y: System<D, P>, e: Event)
    requires Inv(h, y.gateway) && !e.Packet?
    ensures Inv(h, SystemStep(h, y, GatewayEvent(e)).gateway)
  {
    StepKeeps(h, y.gateway, e);
    assert SystemStep(h, y, GatewayEvent(e)).gateway == Step(h, y.gateway, e);
  }

  lemma {:induction false} GatewayKeepsSystem<D, P>(h: EndpointsHash, y: System<D, P>, e: Event)
    requires SystemOk(h, y) && !e.Packet?
    ensures SystemOk(h, SystemStep(h, y, GatewayEvent(e)))
  {
    var z := SystemStep(h, y, GatewayEvent(e));
    assert SendersOk(z) && DeliveriesOk(z) by {
      StepOutputs(h, y.gateway, e);
      GatewayKeepsSenders(h, y, e);
    }
    GatewayKeepsInv(h, y, e);
  }

  lemma {:induction false} SystemStepKeeps<D, P>(h: EndpointsHash, y: System<D, P>, e: SystemEvent<D, P>)
    requires SystemOk(h, y)
    ensures SystemOk(h, SystemStep(h, y, e))
  {
    match e
    case DeviceSends(device, call, now) => SendKeepsSystem(h, y, device, call, now);
    case GatewayEvent(event) =>
      if !event.Packet? {
        GatewayKeepsSystem(h, y, event);
      }
    case _ => BusStepKeeps(h, y, e);
  }

  lemma {:induction false} BusStepIds<D, P>(h: EndpointsHash, y: System<D, P>, e: SystemEvent<D, P>)
    requires IdsOk(y.bus, y.ids) && !e.DeviceSends? && !e.GatewayEvent?
    ensures var z := SystemStep(h, y, e);
      IdsOk(z.bus, z.ids) && (forall d :: d in y.ids ==> d in z.ids && z.ids[d] == y.ids[d])
  {
    match e
    case DeviceCreated(device) =>
      if device !in y.ids && y.bus.nextId < ID_LIMIT {
        NewIds(y.bus, y.ids, device);
      }
    case _ =>
  }

  lemma {:induction false} NewIds<D, P>(bus: Bus<D, P>, ids: map<D, DeviceId>, device: D)
    requires IdsOk(bus, ids) && device !in ids && bus.nextId < ID_LIMIT
    ensures var (bus', id) := RegDeviceListener(bus, device); IdsOk(bus', ids[device := id])
  {
  }

  lemma {:induction false} BusStepKeeps<D, P>(h: EndpointsHash, y: System<D, P>, e: SystemEvent<D, P>)
    requires SystemOk(h, y) && !e.DeviceSends? && !e.GatewayEvent?
    ensures SystemOk(h, SystemStep(h, y, e))
  {
    var z := SystemStep(h, y, e);
    BusStepIds(h, y, e);
    forall g | 0 <= g < |z.senders| ensures SenderOk(z, g) {
      assert SenderOk(y, g);
    }
    forall i | 0 <= i < |z.delivered| ensures DeliveryOk(z, z.delivered[i]) {
      assert DeliveryOk(y, y.delivered[i]);
    }
  }

  lemma {:induction false} SystemRunKeeps<D, P>(h: EndpointsHash, y: System<D, P>, events: seq<SystemEvent<D, P>>)
    requires SystemOk(h, y)
    ensures SystemOk(h, SystemRun(h, y, events))
    decreases |events|
  {
    if events != [] {
      SystemStepKeeps(h, y, events[0]);
      SystemRunKeeps(h, SystemStep(h, y, events[0]), events[1..]);
    }
  }

  /**
   No misdelivery, over any run of devices, ports and gateway: a device only ever
   receives calls from sessions it opened itself, under the id it was given, for
   the client it named. A device constructed later never gets them.
   */
  lemma {:induction false} NoMisdelivery<D, P>(h: EndpointsHash, events: seq<SystemEvent<D, P>>, i: nat)
    requires i < |SystemRun<D, P>(h, Start(), events).delivered|
    ensures var y := SystemRun<D, P>(h, Start(), events); var d := y.delivered[i];
      && d.session < |y.senders| && d.session < |y.gateway.sessions|
      && d.device == y.senders[d.session] && d.device in y.ids
      && y.ids[d.device] == y.gateway.sessions[d.session].key.device
      && d.call.client == y.gateway.sessions[d.session].key.client
      && (forall other :: other in y.ids && y.ids[other] == y.ids[d.device] ==> other == d.device)
  {
    var y := SystemRun<D, P>(h, Start(), events);
    SystemRunKeeps<D, P>(h, Start(), events);
    assert DeliveryOk(y, y.delivered[i]);
    assert SenderOk(y, y.delivered[i].session);
  }

  /* ---- Exact delivery ---- */

  lemma {:induction false} CountOne<D, P>(b: Bus<D, P>, o: Output, n: nat, d: Delivery<D>)
    ensures multiset(Published(b, o, n))[d] ==
            if o.device in b.devices && d == Delivery(b.devices[o.device], o.call, o.session) then n else 0
  {
    if n > 0 {
      CountOne(b, o, n - 1, d);
      assert multiset(Published(b, o, n)) == multiset(PublishGwData(b, o)) + multiset(Published(b, o, n - 1));
    }
  }

  // With distinct sessions, a call is published once by each gateway listener.
  lemma {:induction false} CountAll<D, P>(b: Bus<D, P>, outputs: seq<Output>, j: nat, d: Delivery<D>)
    requires forall i, k :: 0 <= i < k < |outputs| ==> outputs[i].session != outputs[k].session
    requires j <= |outputs|
    requires if j < |outputs| then outputs[j].session == d.session
             else forall i :: 0 <= i < |outputs| ==> outputs[i].session != d.session
    ensures multiset(PublishedAll(b, outputs))[d] ==
            if j < |outputs| && outputs[j].device in b.devices
               && d == Delivery(b.devices[outputs[j].device], outputs[j].call, outputs[j].session)
            then |b.gateways| else 0
    decreases |outputs|
  {
    if outputs != [] {
      var rest := outputs[1..];
      CountOne(b, outputs[0], |b.gateways|, d);
      CountAll(b, rest, if j == 0 then |rest| else j - 1, d);
      assert multiset(PublishedAll(b, outputs)) ==
             multiset(Published(b, outputs[0], |b.gateways|)) + multiset(PublishedAll(b, rest));
    }
  }

  // Each port delivers the reply for a session once, if the session's device is still there.
  ghost predicate DeliveredOnce<D, P>(y: System<D, P>, st: StreamRef, data: DataBuffer, key: Key,
                                      made: seq<Delivery<D>>)
    requires key in y.gateway.store
  {
    var g := y.gateway.store[key].stream.id;
    && g < |y.senders|
    && (if Registered(y, y.senders[g]) then
          multiset(made)[Delivery(y.senders[g], FromServer(key.client, data), g)] == |y.bus.gateways|
        else
          forall i :: 0 <= i < |made| ==> made[i].session != g)
  }

  // Every delivery carries the datum, and goes to the device of a session tied to the stream.
  ghost predicate OnlyTied<D, P>(y: System<D, P>, st: StreamRef, data: DataBuffer, made: seq<Delivery<D>>) {
    forall i :: 0 <= i < |made| ==>
      && DeliveryOk(y, made[i]) && Registered(y, made[i].device) && made[i].call.data == data
      && TiedTo(y.gateway, y.gateway.sessions[made[i].session].key, st)
  }

  /**
   In every reachable state, one datum on a server stream is delivered once by
   each attached port to the device of each session tied to that stream, if that
   device still exists; a reply for a departed device is dropped, and nobody else
   receives anything.
   */
  lemma {:induction false} ExactDelivery<D, P>(h: EndpointsHash, events: seq<SystemEvent<D, P>>, st: StreamRef,
                                               data: DataBuffer,
                                         now: TimePoint, key: Key)
    requires TiedTo(SystemRun<D, P>(h, Start(), events).gateway, key, st)
    ensures var y := SystemRun<D, P>(h, Start(), events);
      var z := SystemStep(h, y, GatewayEvent(Replied(st, data, now)));
      && y.delivered <= z.delivered
      && DeliveredOnce(y, st, data, key, z.delivered[|y.delivered|..])
      && OnlyTied(y, st, data, z.delivered[|y.delivered|..])
  {
    SystemRunKeeps<D, P>(h, Start(), events);
    var y := SystemRun<D, P>(h, Start(), events);
    TiedStream(h, y.gateway, st, key);
    ReplyOutputs(h, y.gateway, st, data, now);
    DeliveredIn(h, y, st, data, now, key);
  }

  lemma {:induction false} TiedStream(h: EndpointsHash, s: State, st: StreamRef, key: Key)
    requires Inv(h, s) && TiedTo(s, key, st)
    ensures EntryOk(key, s.store[key], s.sessions) && st < |s.streams|
  {
    assert TiedOk(s.store[key].stream, s.streams);
  }

  lemma {:induction false} ReplyOutputs(h: EndpointsHash, s: State, st: StreamRef, data: DataBuffer, now: TimePoint)
    requires Inv(h, s) && st < |s.streams|
    ensures var made := NewOutputs(s, Step(h, s, Replied(st, data, now)));
      ExactReplies(s, st, data, made) && OutputsOk(s, made)
  {
    FanOutIn(h, s, st, data, now);
    NewOutputsAre(h, s, st, data, now);
    RepliesOk(s, st, data, NewOutputs(s, Step(h, s, Replied(st, data, now))));
  }

  lemma {:induction false} NewOutputsAre(h: EndpointsHash, s: State, st: StreamRef, data: DataBuffer, now: TimePoint)
    requires s.outputs <= Reply(s, st, data, now).outputs
    ensures NewOutputs(s, Step(h, s, Replied(st, data, now))) == Reply(s, st, data, now).outputs[|s.outputs|..]
  {
  }

  lemma {:induction false} DeliveredIn<D, P>(h: EndpointsHash, y: System<D, P>, st: StreamRef, data: DataBuffer,
                                             now: TimePoint, key: Key)
    requires SendersOk(y) && TiedTo(y.gateway, key, st) && EntryOk(key, y.gateway.store[key], y.gateway.sessions)
    requires var made := NewOutputs(y.gateway, Step(h, y.gateway, Replied(st, data, now)));
      ExactReplies(y.gateway, st, data, made) && OutputsOk(y.gateway, made)
    ensures var z := SystemStep(h, y, GatewayEvent(Replied(st, data, now)));
      && y.delivered <= z.delivered
      && DeliveredOnce(y, st, data, key, z.delivered[|y.delivered|..])
      && OnlyTied(y, st, data, z.delivered[|y.delivered|..])
  {
    var e := Replied(st, data, now);
    var outputs := NewOutputs(y.gateway, Step(h, y.gateway, e));
    RepliesDelivered(y, st, data, key, outputs);
    var made := PublishedAll(y.bus, outputs);
    var z := SystemStep(h, y, GatewayEvent(e));
    assert z.delivered == y.delivered + made;
    assert z.delivered[|y.delivered|..] == made;
  }

  lemma {:induction false} RepliesDelivered<D, P>(y: System<D, P>, st: StreamRef, data: DataBuffer, key: Key,
                                                outputs: seq<Output>)
    requires SendersOk(y) && ExactReplies(y.gateway, st, data, outputs)
    requires TiedTo(y.gateway, key, st) && EntryOk(key, y.gateway.store[key], y.gateway.sessions)
    requires OutputsOk(y.gateway, outputs)
    ensures DeliveredOnce(y, st, data, key, PublishedAll(y.bus, outputs))
    ensures OnlyTied(y, st, data, PublishedAll(y.bus, outputs))
  {
    var s := y.gateway;
    var made := PublishedAll(y.bus, outputs);
    var g := s.store[key].stream.id;
    assert SenderOk(y, g);
    var j :| 0 <= j < |outputs| && outputs[j] == ReplyTo(s, key, data);
    CountAll(y.bus, outputs, j, Delivery(y.senders[g], FromServer(key.client, data), g));
    forall i | 0 <= i < |made|
      ensures DeliveryOk(y, made[i]) && Registered(y, made[i].device) && made[i].call.data == data
      ensures TiedTo(s, s.sessions[made[i].session].key, st)
    {
      PublishedToSender(y, outputs, i);
      var k := PublishedFrom(y.bus, outputs, i);
    }
  }

  /* ---- Exact arrival ---- */

  function Copies(item: Item, n: nat): seq<Item> {
    if n == 0 then [] else [item] + Copies(item, n - 1)
  }

  function WrittenUnder(s: State, key: Key): seq<Item> {
    if key in s.store && s.store[key].stream.id < |s.sessions| then s.sessions[s.store[key].stream.id].written else []
  }

  lemma {:induction false} OneMoreCopy(written: seq<Item>, item: Item, n: nat)
    requires n > 0
    ensures written + [item] + Copies(item, n - 1) == written + Copies(item, n)
  {
  }

  lemma {:induction false} ForwardedOnce(h: EndpointsHash, s: State, device: DeviceId, call: GatewayCall,
                                         now: TimePoint)
    requires StoreOk(s.store, s.sessions)
    ensures var key := MakeKey(h, device, call.client, call.Wanted());
      WrittenUnder(Input(h, s, device, call, now), key) ==
      WrittenUnder(s, key) + [Item(call.Wanted(), call.data)]
  {
    var key := MakeKey(h, device, call.client, call.Wanted());
    assert key in s.store ==> EntryOk(key, s.store[key], s.sessions);
    PacketEntry(h, s, Packet(device, call, now), key);
    InputSessions(h, s, device, call, now);
  }

  /** A packet a device sends joins the session under its key once for each attached port. */
  lemma {:induction false} EachPortForwards(h: EndpointsHash, s: State, n: nat, device: DeviceId, call: GatewayCall,
                                            now: TimePoint)
    requires StoreOk(s.store, s.sessions)
    ensures var key := MakeKey(h, device, call.client, call.Wanted());
      WrittenUnder(Inputs(h, s, n, device, call, now), key) ==
      WrittenUnder(s, key) + Copies(Item(call.Wanted(), call.data), n)
    decreases n
  {
    if n > 0 {
      var key, item := MakeKey(h, device, call.client, call.Wanted()), Item(call.Wanted(), call.data);
      var s1 := Input(h, s, device, call, now);
      ForwardedOnce(h, s, device, call, now);
      InputStore(h, s, device, call, now);
      EachPortForwards(h, s1, n - 1, device, call, now);
      OneMoreCopy(WrittenUnder(s, key), item, n);
    }
  }

  /**
   In every reachable state, what a registered device sends joins the session
   under the device's own id, the client and the server, once for each attached
   port; a device that is gone sends nothing.
   */
  lemma {:induction false} SendReachesSession<D, P>(h: EndpointsHash, events: seq<SystemEvent<D, P>>, device: D,
                                              call: GatewayCall, now: TimePoint)
    requires device in SystemRun<D, P>(h, Start(), events).ids
    ensures var y := SystemRun<D, P>(h, Start(), events);
      var z := SystemStep(h, y, DeviceSends(device, call, now));
      var key := MakeKey(h, y.ids[device], call.client, call.Wanted());
      if Registered(y, device) then
        WrittenUnder(z.gateway, key) ==
        WrittenUnder(y.gateway, key) + Copies(Item(call.Wanted(), call.data), |y.bus.gateways|)
      else z == y
  {
    SystemRunKeeps<D, P>(h, Start(), events);
    SentIn(h, SystemRun<D, P>(h, Start(), events), device, call, now);
  }

  lemma {:induction false} SentIn<D, P>(h: EndpointsHash, y: System<D, P>, device: D, call: GatewayCall, now: TimePoint)
    requires StoreOk(y.gateway.store, y.gateway.sessions) && device in y.ids
    ensures var z := SystemStep(h, y, DeviceSends(device, call, now));
      var key := MakeKey(h, y.ids[device], call.client, call.Wanted());
      if Registered(y, device) then
        WrittenUnder(z.gateway, key) ==
        WrittenUnder(y.gateway, key) + Copies(Item(call.Wanted(), call.data), |y.bus.gateways|)
      else z == y
  {
    EachPortForwards(h, y.gateway, |y.bus.gateways|, y.ids[device], call, now);
  }

  /**
   The gateway inside any run of the whole system does the run that the system's
   events are for it, so whatever is proved of that run holds of it.
   */
  lemma {:induction false} GatewayRuns<D, P>(h: EndpointsHash, y: System<D, P>, events: seq<SystemEvent<D, P>>)
    ensures SystemRun(h, y, events).gateway == Run(h, y.gateway, GatewayEvents(h, y, events))
    decreases |events|
  {
    if events != [] {
      var z := SystemStep(h, y, events[0]);
      StepRuns(h, y, events[0]);
      GatewayRuns(h, z, events[1..]);
      RunBoth(h, y.gateway, GatewayEventsOf(y, events[0]), GatewayEvents(h, z, events[1..]));
    }
  }

  lemma {:induction false} StepRuns<D, P>(h: EndpointsHash, y: System<D, P>, e: SystemEvent<D, P>)
    ensures SystemStep(h, y, e).gateway == Run(h, y.gateway, GatewayEventsOf(y, e))
  {
    match e
    case DeviceSends(device, call, now) =>
      if Registered(y, device) {
        InputsAreARun(h, y.gateway, |y.bus.gateways|, y.ids[device], call, now);
      }
    case GatewayEvent(event) =>
      if !event.Packet? {
        RunOne(h, y.gateway, event);
      }
    case _ =>
  }
}
