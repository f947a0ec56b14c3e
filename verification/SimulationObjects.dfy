/** A whole simulation: devices, ports, a bus and a gateway, and the run they have made. */
module SimulationObjects {
  import opened Wire
  import opened GatewayModel
  import opened GatewayObjects
  import opened SystemModel
  import opened BusModel
  import opened SimObjects

  lemma {:induction false} RunExtended<D, P>(h: EndpointsHash, events: seq<SystemEvent<D, P>>, e: SystemEvent<D, P>)
    ensures SystemRun(h, SystemModel.Start<D, P>(), events + [e]) ==
            SystemStep(h, SystemRun(h, SystemModel.Start<D, P>(), events), e)
  {
    SystemRunLast(h, SystemModel.Start<D, P>(), events, e);
  }

  type SimSystem = System<GwSimDevice, GwSimDevicePort>
  type SimEvent = SystemEvent<GwSimDevice, GwSimDevicePort>

  /**
   One gateway joined to one bus, as the simulator wires them, with the devices
   and ports constructed on it. The ghost fields remember what a system remembers.
   */
  class Simulation {
    const gateway: Gateway
    const bus: GwSimDataBus
    const h: EndpointsHash
    ghost var history: seq<SimEvent>
    ghost var ids: map<GwSimDevice, DeviceId>
    ghost var senders: seq<GwSimDevice>
    ghost var delivered: seq<Delivery<GwSimDevice>>

    ghost function View(): SimSystem
      reads `ids, `senders, `delivered, bus`nextDeviceId, bus`deviceListeners, bus`gatewayListeners
      reads gateway, gateway.port`streamStore, gateway.manager`streamCache
    {
      System(bus.View(), gateway.View(), ids, senders, delivered)
    }

    // All ports join this bus to this gateway.
    ghost predicate Wired()
      reads gateway.port`gateway, gateway.manager`gateway, bus`gatewayListeners
    {
      && gateway.Valid()
      && (forall p :: p in bus.gatewayListeners ==> p.bus == bus && p.localPort == gateway.port)
    }

    // The state is the one the recorded run leads to.
    ghost predicate Valid()
      reads this, bus`nextDeviceId, bus`deviceListeners, bus`gatewayListeners
      reads gateway, gateway.port, gateway.manager, ids.Keys
    {
      Kept() && View() == SystemRun(h, SystemModel.Start(), history)
    }

    // Every device has received just what was delivered to it.
    ghost predicate Kept()
      reads `ids, `delivered, bus`deviceListeners, bus`gatewayListeners
      reads gateway.port`gateway, gateway.manager`gateway, ids.Keys
    {
      && Wired()
      && (forall id :: id in bus.deviceListeners ==> bus.deviceListeners[id] in ids)
      && (forall d :: d in ids ==>
            d.bus == bus && d.deviceId == ids[d] && d.received == CallsTo(delivered, d))
      && (forall i :: 0 <= i < |delivered| ==> delivered[i].device in ids)
    }

    constructor (h: EndpointsHash)
      ensures Valid() && View() == SystemModel.Start() && this.h == h
      ensures fresh(gateway) && fresh(bus) && fresh(gateway.port) && fresh(gateway.manager)
    {
      gateway := new Gateway();
      bus := new GwSimDataBus();
      this.h := h;
      history, ids, senders, delivered := [], map[], [], [];
    }

    // An event that has been carried out joins the history.
    ghost method Record(e: SimEvent, y: SimSystem)
      requires Kept() && y == SystemRun(h, SystemModel.Start(), history) && View() == SystemStep(h, y, e)
      modifies this`history
      ensures Valid() && View() == old(View())
    {
      RunExtended(h, history, e);
      history := history + [e];
    }

    method CreateDevice() returns (device: GwSimDevice)
      requires Valid() && bus.nextDeviceId < ID_LIMIT
      modifies this`ids, this`history, bus`nextDeviceId, bus`deviceListeners
      ensures Valid() && fresh(device)
      ensures View() == SystemStep(h, old(View()), DeviceCreated(device))
    {
      ghost var y := View();
      device := Construct();
      Record(DeviceCreated(device), y);
    }

    method Construct() returns (device: GwSimDevice)
      requires Kept() && bus.nextDeviceId < ID_LIMIT
      modifies this`ids, bus`nextDeviceId, bus`deviceListeners
      ensures Kept() && fresh(device)
      ensures View() == SystemStep(h, old(View()), DeviceCreated(device))
    {
      device := new GwSimDevice(bus);
      NoCalls(delivered, device);
      ids := ids[device := device.deviceId];
    }

    method DestroyDevice(device: GwSimDevice)
      requires Valid() && device in ids
      modifies this`history, bus`deviceListeners
      ensures Valid()
      ensures View() == SystemStep(h, old(View()), DeviceDestroyed(device))
    {
      ghost var y := View();
      Deregister(device);
      Record(DeviceDestroyed(device), y);
    }

    method Deregister(device: GwSimDevice)
      requires Kept() && device in ids
      modifies bus`deviceListeners
      ensures Kept()
      ensures View() == SystemStep(h, old(View()), DeviceDestroyed(device))
    {
      device.Destroy();
    }

    method CreatePort() returns (port: GwSimDevicePort)
      requires Valid()
      modifies this`history, bus`gatewayListeners
      ensures Valid() && fresh(port)
      ensures View() == SystemStep(h, old(View()), PortCreated(port))
    {
      ghost var y := View();
      port := new GwSimDevicePort(bus, gateway.port);
      Record(PortCreated(port), y);
    }

    method DestroyPort(port: GwSimDevicePort)
      requires Valid() && port.bus == bus
      modifies this`history, bus`gatewayListeners
      ensures Valid()
      ensures View() == SystemStep(h, old(View()), PortDestroyed(port))
    {
      ghost var y := View();
      Detach(port);
      Record(PortDestroyed(port), y);
    }

    method Detach(port: GwSimDevicePort)
      requires Kept() && port.bus == bus
      modifies bus`gatewayListeners
      ensures Kept()
      ensures View() == SystemStep(h, old(View()), PortDestroyed(port))
    {
      OnlyRemoved(bus.gatewayListeners, port);
      port.Destroy();
    }

    // A device that is still registered sends; the ports hand the packet to the gateway.
    method Send(device: GwSimDevice, call: GatewayCall, now: TimePoint)
      requires Valid() && Registered(View(), device)
      modifies this`senders, this`history, bus`pushed, gateway, gateway.port`streamStore, gateway.manager`streamCache
      ensures Valid()
      ensures View() == SystemStep(h, old(View()), DeviceSends(device, call, now))
    {
      ghost var y := View();
      SendOut(device, call, now);
      SendIs(h, y, device, device.deviceId, call, now);
      Record(DeviceSends(device, call, now), y);
    }

    method SendOut(device: GwSimDevice, call: GatewayCall, now: TimePoint)
      requires Kept() && device.bus == bus
      modifies this`senders, bus`pushed, gateway, gateway.port`streamStore, gateway.manager`streamCache
      ensures Kept()
      ensures var y := old(View());
        var s := Inputs(h, y.gateway, |bus.gatewayListeners|, device.deviceId, call, now);
        View() == y.(gateway := s,
                     senders := if |s.sessions| > |y.gateway.sessions| then y.senders + [device] else y.senders)
    {
      ghost var n := |gateway.sessions|;
      PublishOnly(device, call, now);
      senders := if |gateway.sessions| > n then senders + [device] else senders;
    }

    // The rest of the simulation is as it was.
    method PublishOnly(device: GwSimDevice, call: GatewayCall, now: TimePoint)
      requires Kept() && device.bus == bus
      modifies bus`pushed, gateway, gateway.port`streamStore, gateway.manager`streamCache
      ensures Kept()
      ensures var y := old(View());
        View() == y.(gateway := Inputs(h, y.gateway, |bus.gatewayListeners|, device.deviceId, call, now))
    {
      Publish(device, call, now);
    }

    method Publish(device: GwSimDevice, call: GatewayCall, now: TimePoint)
      requires Wired() && device.bus == bus
      modifies bus`pushed, gateway, gateway.port`streamStore, gateway.manager`streamCache
      ensures Wired() && bus.pushed == old(bus.pushed) + Pushes(bus.gatewayListeners, device.deviceId, call)
      ensures gateway.View() ==
              Inputs(h, old(gateway.View()), |bus.gatewayListeners|, device.deviceId, call, now)
    {
      CountAllOn(bus.gatewayListeners, gateway.port);
      match call {
        case ToServerId(client, serverId, data) => device.ToServerId(h, client, serverId, data, now);
        case ToServer(client, endpoints, data) => device.ToServer(h, client, endpoints, data, now);
      }
      assert bus.gatewayListeners != [] ==> bus.gatewayListeners[0] in bus.gatewayListeners;
    }

    /** An output is emitted to the handlers of all ports, each once and in order. */
    method Emit(o: Output)
      requires Wired()
      modifies bus`handled, bus.deviceListeners.Values`received
      ensures bus.handled == old(bus.handled) + Handlings(bus.gatewayListeners, o)
      ensures forall d :: d in bus.deviceListeners.Values ==>
        d.received == old(d.received) + CallsTo(Published(bus.View(), o, |bus.gatewayListeners|), d)
    {
      var n := |bus.gatewayListeners|;
      forall d | d in bus.deviceListeners.Values
        ensures AfterTimes(d.received, bus.View(), o, n, d) == d.received + CallsTo(Published(bus.View(), o, n), d)
      {
        AfterTimesIs(d.received, bus.View(), o, n, d);
      }
      EmitToAll(o);
    }

    method EmitToAll(o: Output)
      requires Wired()
      modifies bus`handled, bus.deviceListeners.Values`received
      ensures bus.handled == old(bus.handled) + Handlings(bus.gatewayListeners, o)
      ensures forall d :: d in bus.deviceListeners.Values ==>
        d.received == AfterTimes(old(d.received), bus.View(), o, |bus.gatewayListeners|, d)
    {
      var n := |bus.gatewayListeners|;
      for i := 0 to n
        invariant bus.handled == old(bus.handled) + Handlings(bus.gatewayListeners[..i], o)
        invariant forall d :: d in bus.deviceListeners.Values ==>
          d.received == AfterTimes(old(d.received), bus.View(), o, i, d)
      {
        assert bus.gatewayListeners[..i + 1][..i] == bus.gatewayListeners[..i];
        EmitTo(bus.gatewayListeners[i], o);
      }
      assert bus.gatewayListeners[..n] == bus.gatewayListeners;
    }

    method EmitTo(port: GwSimDevicePort, o: Output)
      requires Wired() && port in bus.gatewayListeners
      modifies bus`handled, bus.deviceListeners.Values`received
      ensures bus.handled == old(bus.handled) + [Handling(port, o)]
      ensures forall d :: d in bus.deviceListeners.Values ==>
        d.received == old(d.received) + CallsTo(PublishGwData(bus.View(), o), d)
    {
      port.OnOutput(o);
    }

    /** One event at the gateway: what it puts out reaches the listening devices, through every port. */
    method Handle(e: Event)
      requires Valid() && !e.Packet?
      modifies this`delivered, this`history, gateway, gateway.port`streamStore, gateway.manager`streamCache
      modifies bus`handled, bus.deviceListeners.Values`received
      ensures Valid()
      ensures View() == SystemStep(h, old(View()), GatewayEvent(e))
    {
      ghost var y := View();
      Deliver(e);
      EventIs(h, y, e);
      Record(GatewayEvent(e), y);
    }

    method Deliver(e: Event)
      requires Kept() && !e.Packet?
      modifies this`delivered, gateway, gateway.port`streamStore, gateway.manager`streamCache
      modifies bus`handled, bus.deviceListeners.Values`received
      ensures Kept()
      ensures var y := old(View());
        var s := Step(h, y.gateway, e);
        View() == y.(gateway := s, delivered := y.delivered + PublishedAll(y.bus, NewOutputs(y.gateway, s)))
    {
      ghost var made := HandleForAll(e);
      delivered := delivered + made;
    }

    // Also the devices that do not listen have received what was delivered to them, since nothing was.
    method HandleForAll(e: Event) returns (ghost made: seq<Delivery<GwSimDevice>>)
      requires Kept() && !e.Packet?
      modifies gateway, gateway.port`streamStore, gateway.manager`streamCache
      modifies bus`handled, bus.deviceListeners.Values`received
      ensures Wired() && gateway.View() == Step(h, old(gateway.View()), e)
      ensures made == PublishedAll(bus.View(), NewOutputs(old(gateway.View()), gateway.View()))
      ensures forall i :: 0 <= i < |made| ==> made[i].device in ids
      ensures forall d :: d in ids ==> d.received == CallsTo(delivered + made, d)
    {
      made := HandleAndEmit(e);
      MoreCalls(delivered, made, ids.Keys, bus.deviceListeners.Values);
      forall d | d in ids ensures d.received == CallsTo(delivered + made, d) {
        assert d in ids.Keys;
      }
    }

    method HandleAndEmit(e: Event) returns (ghost made: seq<Delivery<GwSimDevice>>)
      requires Wired()
      modifies gateway, gateway.port`streamStore, gateway.manager`streamCache
      modifies bus`handled, bus.deviceListeners.Values`received
      ensures Wired()
      ensures gateway.View() == Step(h, old(gateway.View()), e)
      ensures made == PublishedAll(bus.View(), NewOutputs(old(gateway.View()), gateway.View()))
      ensures forall i :: 0 <= i < |made| ==> made[i].device in bus.deviceListeners.Values
      ensures forall d :: d in bus.deviceListeners.Values ==> d.received == old(d.received) + CallsTo(made, d)
    {
      ghost var s := gateway.View();
      var first := |gateway.outputs|;
      gateway.Handle(h, e);
      var outputs := if first <= |gateway.outputs| then gateway.outputs[first..] else [];
      assert outputs == NewOutputs(s, gateway.View());
      made := PublishedAll(bus.View(), outputs);
      AllRegistered(bus.View(), outputs);
      EmitAll(outputs);
    }

    method EmitAll(outputs: seq<Output>)
      requires Wired()
      modifies bus`handled, bus.deviceListeners.Values`received
      ensures bus.handled == old(bus.handled) + HandlingsAll(bus.gatewayListeners, outputs)
      ensures forall d :: d in bus.deviceListeners.Values ==>
        d.received == old(d.received) + CallsTo(PublishedAll(bus.View(), outputs), d)
    {
      forall d | d in bus.deviceListeners.Values
        ensures AfterOutputs(d.received, bus.View(), outputs, |outputs|, d) ==
                d.received + CallsTo(PublishedAll(bus.View(), outputs), d)
      {
        AfterOutputsIs(d.received, bus.View(), outputs, |outputs|, d);
        assert outputs[..|outputs|] == outputs;
      }
      EmitInTurn(outputs);
    }

    method EmitInTurn(outputs: seq<Output>)
      requires Wired()
      modifies bus`handled, bus.deviceListeners.Values`received
      ensures bus.handled == old(bus.handled) + HandlingsAll(bus.gatewayListeners, outputs)
      ensures forall d :: d in bus.deviceListeners.Values ==>
        d.received == AfterOutputs(old(d.received), bus.View(), outputs, |outputs|, d)
    {
      for i := 0 to |outputs|
        invariant bus.handled == old(bus.handled) + HandlingsAll(bus.gatewayListeners, outputs[..i])
        invariant forall d :: d in bus.deviceListeners.Values ==>
          d.received == AfterOutputs(old(d.received), bus.View(), outputs, i, d)
      {
        OneOutputMore(old(bus.handled), bus.gatewayListeners, outputs, i);
        Emit(outputs[i]);
      }
      assert outputs[..|outputs|] == outputs;
    }
  }
}
