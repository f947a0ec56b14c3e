/** Over runs of the whole system: which devices and ports are there, told from the events alone. */
module Attachment {
  import opened Wire
  import opened GatewayModel
  import opened BusModel
  import opened SystemModel
  import opened EndToEnd
  import opened Collisions

  /** The devices that were constructed and got an id, in order: each once, and 254 at most. */
  function Constructed<D(==), P>(events: seq<SystemEvent<D, P>>): seq<D> {
    if events == [] then []
    else
      var before, e := Constructed(events[..|events| - 1]), events[|events| - 1];
      if e.DeviceCreated? && e.device !in before && |before| < 254 then before + [e.device] else before
  }

  /** The devices that were constructed and have not been destroyed since. */
  function Present<D(==), P>(events: seq<SystemEvent<D, P>>): set<D> {
    if events == [] then {}
    else
      var before, e := events[..|events| - 1], events[|events| - 1];
      if e.DeviceCreated? && e.device !in Constructed(before) && |Constructed(before)| < 254
      then Present(before) + {e.device}
      else if e.DeviceDestroyed? then Present(before) - {e.device}
      else Present(before)
  }

  /** How often a port is attached: its creations, less its destructions that found it. */
  function PortCount<D, P(==)>(events: seq<SystemEvent<D, P>>, port: P): nat {
    if events == [] then 0
    else
      var n, e := PortCount(events[..|events| - 1], port), events[|events| - 1];
      if e.PortCreated? && e.port == port then n + 1
      else if e.PortDestroyed? && e.port == port && n > 0 then n - 1
      else n
  }

  /** How many ports are attached. */
  function Attached<D, P(==)>(events: seq<SystemEvent<D, P>>): int {
    if events == [] then 0
    else
      var before, e := events[..|events| - 1], events[|events| - 1];
      if e.PortCreated? then Attached(before) + 1
      else if e.PortDestroyed? && PortCount(before, e.port) > 0 then Attached(before) - 1
      else Attached(before)
  }

  // The ports created, in order.
  function CreatedPorts<D, P>(events: seq<SystemEvent<D, P>>): seq<P> {
    if events == [] then []
    else
      var before, e := CreatedPorts(events[..|events| - 1]), events[|events| - 1];
      if e.PortCreated? then before + [e.port] else before
  }

  lemma {:induction false} LastStep<D, P>(h: EndpointsHash, events: seq<SystemEvent<D, P>>)
    requires events != []
    ensures SystemRun<D, P>(h, Start(), events) ==
            SystemStep(h, SystemRun<D, P>(h, Start(), events[..|events| - 1]), events[|events| - 1])
  {
    SystemRunLast<D, P>(h, Start(), events[..|events| - 1], events[|events| - 1]);
    assert events[..|events| - 1] + [events[|events| - 1]] == events;
  }

  /* ---- Ports ---- */

  // What one event makes of the listeners.
  lemma {:induction false} StepPorts<D, P>(h: EndpointsHash, y: System<D, P>, e: SystemEvent<D, P>)
    ensures SystemStep(h, y, e).bus.gateways ==
            if e.PortCreated? then y.bus.gateways + [e.port]
            else if e.PortDestroyed? then RemoveFirst(y.bus.gateways, e.port)
            else y.bus.gateways
  {
  }

  /** Over any run each port is a listener of the bus as often as it is attached. */
  lemma {:induction false} PortsAre<D, P>(h: EndpointsHash, events: seq<SystemEvent<D, P>>, port: P)
    ensures multiset(SystemRun<D, P>(h, Start(), events).bus.gateways)[port] == PortCount(events, port)
  {
    if events != [] {
      var before, e := events[..|events| - 1], events[|events| - 1];
      var y := SystemRun<D, P>(h, Start(), before);
      PortsAre(h, before, port);
      LastStep(h, events);
      StepPorts(h, y, e);
      if e.PortCreated? {
        assert multiset(y.bus.gateways + [e.port]) == multiset(y.bus.gateways) + multiset([e.port]);
      } else if e.PortDestroyed? {
        RemoveFirstCount(y.bus.gateways, e.port, port);
      }
    }
  }

  /** And the bus has as many listeners as ports are attached. */
  lemma {:induction false} PortsNumber<D, P>(h: EndpointsHash, events: seq<SystemEvent<D, P>>)
    ensures |SystemRun<D, P>(h, Start(), events).bus.gateways| == Attached(events)
  {
    if events != [] {
      var before, e := events[..|events| - 1], events[|events| - 1];
      var y := SystemRun<D, P>(h, Start(), before);
      PortsNumber(h, before);
      LastStep(h, events);
      StepPorts(h, y, e);
      if e.PortDestroyed? {
        PortsAre(h, before, e.port);
        RemoveFirstCount(y.bus.gateways, e.port, e.port);
      }
    }
  }

  /** As long as no port is destroyed the listeners are the ports created, in order. */
  lemma {:induction false} PortsInOrder<D, P>(h: EndpointsHash, events: seq<SystemEvent<D, P>>)
    requires forall i :: 0 <= i < |events| ==> !events[i].PortDestroyed?
    ensures SystemRun<D, P>(h, Start(), events).bus.gateways == CreatedPorts(events)
    ensures Attached(events) == |CreatedPorts(events)|
  {
    PortsNumber(h, events);
    if events != [] {
      var before, e := events[..|events| - 1], events[|events| - 1];
      PortsInOrder(h, before);
      LastStep(h, events);
      StepPorts(h, SystemRun<D, P>(h, Start(), before), e);
    }
  }

  /* ---- Devices ---- */

  // The ids are those of the devices constructed, and those present are registered.
  ghost predicate DevicesFollow<D, P>(y: System<D, P>, devices: seq<D>, present: set<D>) {
    && |devices| <= 254 && y.bus.nextId == |devices| + 1
    && (forall i :: 0 <= i < |devices| ==> devices[i] in y.ids && y.ids[devices[i]] == i + 1)
    && (forall d :: d in y.ids ==> d in devices)
    && (forall id :: id in y.bus.devices ==>
          1 <= id <= |devices| && y.bus.devices[id] == devices[id - 1] && devices[id - 1] in present)
    && (forall i :: 0 <= i < |devices| && devices[i] in present ==> i + 1 in y.bus.devices)
    && (forall d :: d in present ==> d in devices)
  }

  lemma {:induction false} DevicesFollowRun<D, P>(h: EndpointsHash, events: seq<SystemEvent<D, P>>)
    ensures DevicesFollow(SystemRun<D, P>(h, Start(), events), Constructed(events), Present(events))
  {
    if events != [] {
      var before, e := events[..|events| - 1], events[|events| - 1];
      DevicesFollowRun(h, before);
      LastStep(h, events);
      DevicesFollowStep(h, SystemRun<D, P>(h, Start(), before), Constructed(before), Present(before), e);
    }
  }

  lemma {:induction false} DevicesFollowStep<D, P>(h: EndpointsHash, y: System<D, P>, devices: seq<D>, present: set<D>,
                                                   e: SystemEvent<D, P>)
    requires DevicesFollow(y, devices, present)
    ensures var z := SystemStep(h, y, e);
      if e.DeviceCreated? && e.device !in devices && |devices| < 254
      then DevicesFollow(z, devices + [e.device], present + {e.device})
      else if e.DeviceDestroyed? then DevicesFollow(z, devices, present - {e.device})
      else DevicesFollow(z, devices, present)
  {
    match e
    case DeviceCreated(device) =>
      if device !in devices && |devices| < 254 {
        NewDevice(y, devices, present, device);
      }
    case DeviceDestroyed(device) => OldDevice(y, devices, present, device);
    case _ =>
  }

  lemma {:induction false} NewDevice<D, P>(y: System<D, P>, devices: seq<D>, present: set<D>, device: D)
    requires DevicesFollow(y, devices, present) && device !in devices && |devices| < 254
    ensures y.bus.nextId < ID_LIMIT && device !in y.ids
    ensures var (bus, id) := RegDeviceListener(y.bus, device);
      DevicesFollow(y.(bus := bus, ids := y.ids[device := id]), devices + [device], present + {device})
  {
  }

  lemma {:induction false} OldDevice<D, P>(y: System<D, P>, devices: seq<D>, present: set<D>, device: D)
    requires DevicesFollow(y, devices, present)
    ensures DevicesFollow(if device in y.ids then y.(bus := RemoveDeviceListener(y.bus, y.ids[device])) else y,
                          devices, present - {device})
  {
  }

  /**
   Over any run the n-th device constructed has the id n, and a device is registered
   exactly from its construction to its destruction.
   */
  lemma {:induction false} DevicesAre<D, P>(h: EndpointsHash, events: seq<SystemEvent<D, P>>, device: D)
    ensures var y, devices := SystemRun<D, P>(h, Start(), events), Constructed(events);
      && (device in y.ids <==> device in devices)
      && (forall i :: 0 <= i < |devices| && devices[i] == device ==> y.ids[device] == i + 1)
      && (Registered(y, device) <==> device in Present(events))
  {
    DevicesFollowRun(h, events);
    var devices := Constructed(events);
    if device in Present(events) {
      var i :| 0 <= i < |devices| && devices[i] == device;
    }
  }

  /* ---- From the events to the session ---- */

  /**
   Over any run, told from its events: what the n-th device constructed sends joins
   the session of id n, the client and the server's number once for each attached
   port, if the device has not been destroyed; if it has, nothing happens.
   */
  lemma {:induction false} SendJoins<D, P>(h: EndpointsHash, events: seq<SystemEvent<D, P>>, n: nat, call: GatewayCall,
                                           now: TimePoint)
    requires 1 <= n <= |Constructed(events)|
    ensures n <= 254 && Attached(events) >= 0
    ensures var y := SystemRun<D, P>(h, Start(), events);
      var device := Constructed(events)[n - 1];
      var z := SystemStep(h, y, DeviceSends(device, call, now));
      var key := Key(n, call.client, NumberOf(h, call));
      if device in Present(events) then
        WrittenUnder(z.gateway, key) == WrittenUnder(y.gateway, key) + Copies(ItemOf(call), Attached(events))
      else z == y
  {
    var device := Constructed(events)[n - 1];
    DevicesNumber<D, P>(h, events);
    DevicesAre(h, events, device);
    PortsNumber(h, events);
    NumbersAre(h, n, call);
    SendReachesSession(h, events, device, call, now);
  }

  lemma {:induction false} DevicesNumber<D, P>(h: EndpointsHash, events: seq<SystemEvent<D, P>>)
    ensures |Constructed(events)| <= 254
  {
    DevicesFollowRun<D, P>(h, events);
  }

  lemma {:induction false} NumbersAre(h: EndpointsHash, id: DeviceId, call: GatewayCall)
    ensures MakeKey(h, id, call.client, call.Wanted()) == Key(id, call.client, NumberOf(h, call))
    ensures Item(call.Wanted(), call.data) == ItemOf(call)
  {
  }
}
