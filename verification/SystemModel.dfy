/** Devices, a bus, ports and a gateway as one state machine. */
module SystemModel {
  import opened Wire
  import opened GatewayModel
  import opened BusModel

  // A call a device received, and the session it came from.
  datatype Delivery<D> = Delivery(device: D, call: ClientCall, session: SessionId)

  // `ids` has the id of every device ever constructed, `senders` the device that opened each session.
  datatype System<D(==), P> = System(
    bus: Bus<D, P>,
    gateway: State,
    ids: map<D, DeviceId>,
    senders: seq<D>,
    delivered: seq<Delivery<D>>)

  function Start<D(==), P>(): System<D, P> {
    System(Bus(1, map[], []), EMPTY, map[], [], [])
  }

  datatype SystemEvent<D, P> =
    | DeviceCreated(device: D)
    | DeviceDestroyed(device: D)
    | PortCreated(port: P)
    | PortDestroyed(port: P)
    | DeviceSends(device: D, call: GatewayCall, now: TimePoint)
    | GatewayEvent(event: Event)

  predicate Registered<D(==), P>(y: System<D, P>, device: D) {
    device in y.ids && y.ids[device] in y.bus.devices && y.bus.devices[y.ids[device]] == device
  }

  // Each gateway listener hands the packet to the local port.
  function Inputs(h: EndpointsHash, s: State, n: nat, device: DeviceId, call: GatewayCall, now: TimePoint): State
    decreases n
  {
    if n == 0 then s else Inputs(h, Input(h, s, device, call, now), n - 1, device, call, now)
  }

  lemma {:induction false} NoInputs(h: EndpointsHash, s: State, device: DeviceId, call: GatewayCall, now: TimePoint)
    ensures Inputs(h, s, 0, device, call, now) == s
  {
  }

  lemma {:induction false} NextInputs(h: EndpointsHash, s: State, n: nat, device: DeviceId, call: GatewayCall,
                                      now: TimePoint)
    ensures Inputs(h, s, n + 1, device, call, now) == Inputs(h, Input(h, s, device, call, now), n, device, call, now)
  {
  }

  lemma {:induction false} InputsLast(h: EndpointsHash, s: State, n: nat, device: DeviceId, call: GatewayCall,
                                      now: TimePoint)
    ensures Inputs(h, s, n + 1, device, call, now) == Input(h, Inputs(h, s, n, device, call, now), device, call, now)
    decreases n
  {
    NextInputs(h, s, n, device, call, now);
    if n > 0 {
      InputsLast(h, Input(h, s, device, call, now), n - 1, device, call, now);
      NextInputs(h, s, n - 1, device, call, now);
    } else {
      NoInputs(h, s, device, call, now);
      NoInputs(h, Input(h, s, device, call, now), device, call, now);
    }
  }

  // One gateway listener publishes one output.
  function PublishGwData<D, P>(b: Bus<D, P>, o: Output): seq<Delivery<D>> {
    if o.device in b.devices then [Delivery(b.devices[o.device], o.call, o.session)] else []
  }

  // All of them do.
  function Published<D, P>(b: Bus<D, P>, o: Output, n: nat): seq<Delivery<D>> {
    if n == 0 then [] else PublishGwData(b, o) + Published(b, o, n - 1)
  }

  function PublishedAll<D, P>(b: Bus<D, P>, outputs: seq<Output>): seq<Delivery<D>> {
    if outputs == [] then [] else Published(b, outputs[0], |b.gateways|) + PublishedAll(b, outputs[1..])
  }

  function NewOutputs(s: State, t: State): seq<Output> {
    if |s.outputs| <= |t.outputs| then t.outputs[|s.outputs|..] else []
  }

  // A device is constructed once, and as long as there are ids left.
  function SystemStep<D(==), P(==)>(h: EndpointsHash, y: System<D, P>, e: SystemEvent<D, P>): System<D, P> {
    match e
    case DeviceCreated(device) =>
      if device !in y.ids && y.bus.nextId < ID_LIMIT then
        var (bus, id) := RegDeviceListener(y.bus, device);
        y.(bus := bus, ids := y.ids[device := id])
      else y
    case DeviceDestroyed(device) =>
      if device in y.ids then y.(bus := RemoveDeviceListener(y.bus, y.ids[device])) else y
    case PortCreated(port) => y.(bus := RegGatewayListener(y.bus, port))
    case PortDestroyed(port) => y.(bus := RemoveGatewayListener(y.bus, port))
    case DeviceSends(device, call, now) =>
      if Registered(y, device) then
        var s := Inputs(h, y.gateway, |y.bus.gateways|, y.ids[device], call, now);
        y.(gateway := s,
           senders := if |s.sessions| > |y.gateway.sessions| then y.senders + [device] else y.senders)
      else y
    case GatewayEvent(event) =>
      if event.Packet? then y
      else
        var s := Step(h, y.gateway, event);
        y.(gateway := s, delivered := y.delivered + PublishedAll(y.bus, NewOutputs(y.gateway, s)))
  }

  lemma {:induction false} SendIs<D, P>(h: EndpointsHash, y: System<D, P>, device: D, id: DeviceId, call: GatewayCall,
                                        now: TimePoint)
    requires Registered(y, device) && y.ids[device] == id
    ensures var s := Inputs(h, y.gateway, |y.bus.gateways|, id, call, now);
      SystemStep(h, y, DeviceSends(device, call, now)) ==
      y.(gateway := s, senders := if |s.sessions| > |y.gateway.sessions| then y.senders + [device] else y.senders)
  {
  }

  lemma {:induction false} EventIs<D, P>(h: EndpointsHash, y: System<D, P>, e: Event)
    requires !e.Packet?
    ensures var s := Step(h, y.gateway, e);
      SystemStep(h, y, GatewayEvent(e)) ==
      y.(gateway := s, delivered := y.delivered + PublishedAll(y.bus, NewOutputs(y.gateway, s)))
  {
  }

  function SystemRun<D(==), P(==)>(h: EndpointsHash, y: System<D, P>, events: seq<SystemEvent<D, P>>): System<D, P>
    decreases |events|
  {
    if events == [] then y else SystemRun(h, SystemStep(h, y, events[0]), events[1..])
  }

  function Packets(n: nat, e: Event): seq<Event> {
    if n == 0 then [] else [e] + Packets(n - 1, e)
  }

  // What an event of the system is for the gateway: a packet from each port, an event of its own, or nothing.
  function GatewayEventsOf<D(==), P>(y: System<D, P>, e: SystemEvent<D, P>): seq<Event> {
    match e
    case DeviceSends(device, call, now) =>
      if Registered(y, device) then Packets(|y.bus.gateways|, Packet(y.ids[device], call, now)) else []
    case GatewayEvent(event) => if event.Packet? then [] else [event]
    case _ => []
  }

  /** The run of the gateway inside a run of the system. */
  function GatewayEvents<D(==), P(==)>(h: EndpointsHash, y: System<D, P>, events: seq<SystemEvent<D, P>>): seq<Event>
    decreases |events|
  {
    if events == [] then []
    else GatewayEventsOf(y, events[0]) + GatewayEvents(h, SystemStep(h, y, events[0]), events[1..])
  }

  lemma {:induction false} SystemRunLast<D, P>(h: EndpointsHash, y: System<D, P>, events: seq<SystemEvent<D, P>>,
                                               e: SystemEvent<D, P>)
    ensures SystemRun(h, y, events + [e]) == SystemStep(h, SystemRun(h, y, events), e)
    decreases |events|
  {
    if events == [] {
      assert [e][1..] == [];
      assert SystemRun(h, SystemStep(h, y, e), []) == SystemStep(h, y, e);
      assert [] + [e] == [e];
    } else {
      assert (events + [e])[1..] == events[1..] + [e];
      SystemRunLast(h, SystemStep(h, y, events[0]), events[1..], e);
    }
  }
}
