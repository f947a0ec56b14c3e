/**
 The simulator's objects, changed in place: the data bus, the devices on one
 side of it, and the ports that join it to a gateway on the other side.
 */
module SimObjects {
  import opened Wire
  import opened GatewayModel
  import opened GatewayObjects
  import opened SystemModel
  import Model = BusModel
  import opened BusModel

  // The calls of a list of deliveries that went to one device, in order.
  function CallsTo<D(==)>(made: seq<Delivery<D>>, device: D): seq<ClientCall> {
    if made == [] then []
    else (if made[0].device == device then [made[0].call] else []) + CallsTo(made[1..], device)
  }

  lemma {:induction false} CallsSplit<D>(first: seq<Delivery<D>>, second: seq<Delivery<D>>, device: D)
    ensures CallsTo(first + second, device) == CallsTo(first, device) + CallsTo(second, device)
  {
    if first == [] {
      assert first + second == second;
    } else {
      assert (first + second)[1..] == first[1..] + second && (first + second)[0] == first[0];
      CallsSplit(first[1..], second, device);
      var head := if first[0].device == device then [first[0].call] else [];
      assert CallsTo(first + second, device) == head + (CallsTo(first[1..], device) + CallsTo(second, device));
    }
  }

  // Publishing once more adds the same deliveries at the end as at the front.
  lemma {:induction false} PublishedLast<D, P>(b: Bus<D, P>, o: Output, n: nat)
    ensures Published(b, o, n + 1) == Published(b, o, n) + PublishGwData(b, o)
  {
    if n > 0 {
      PublishedLast(b, o, n - 1);
    }
  }

  lemma {:induction false} PublishedAllLast<D, P>(b: Bus<D, P>, outputs: seq<Output>, o: Output)
    ensures PublishedAll(b, outputs + [o]) == PublishedAll(b, outputs) + Published(b, o, |b.gateways|)
  {
    if outputs == [] {
      assert [o][1..] == [];
    } else {
      assert (outputs + [o])[1..] == outputs[1..] + [o];
      PublishedAllLast(b, outputs[1..], o);
    }
  }

  // What a device has received after n publications of one output.
  function AfterTimes<D(==), P>(received: seq<ClientCall>, b: Bus<D, P>, o: Output, n: nat,
                        device: D): seq<ClientCall> {
    if n == 0 then received else AfterTimes(received, b, o, n - 1, device) + CallsTo(PublishGwData(b, o), device)
  }

  lemma {:induction false} AfterTimesIs<D, P>(received: seq<ClientCall>, b: Bus<D, P>, o: Output, n: nat, device: D)
    ensures AfterTimes(received, b, o, n, device) == received + CallsTo(Published(b, o, n), device)
  {
    if n > 0 {
      AfterTimesIs(received, b, o, n - 1, device);
      PublishedLast(b, o, n - 1);
      CallsSplit(Published(b, o, n - 1), PublishGwData(b, o), device);
    }
  }

  // What a device has received after the publications of some outputs.
  function AfterOutputs<D(==), P>(received: seq<ClientCall>, b: Bus<D, P>, outputs: seq<Output>, n: nat,
                          device: D): seq<ClientCall>
    requires n <= |outputs|
  {
    if n == 0 then received
    else AfterOutputs(received, b, outputs, n - 1, device) + CallsTo(Published(b, outputs[n - 1], |b.gateways|), device)
  }

  lemma {:induction false} AfterOutputsIs<D, P>(received: seq<ClientCall>, b: Bus<D, P>, outputs: seq<Output>, n: nat,
                                                device: D)
    requires n <= |outputs|
    ensures AfterOutputs(received, b, outputs, n, device) == received + CallsTo(PublishedAll(b, outputs[..n]), device)
  {
    if n > 0 {
      var before, o := outputs[..n - 1], outputs[n - 1];
      AfterOutputsIs(received, b, outputs, n - 1, device);
      assert outputs[..n] == before + [o];
      PublishedAllLast(b, before, o);
      CallsSplit(PublishedAll(b, before), Published(b, o, |b.gateways|), device);
    }
  }

  lemma {:induction false} NoCalls<D>(made: seq<Delivery<D>>, device: D)
    requires forall i :: 0 <= i < |made| ==> made[i].device != device
    ensures CallsTo(made, device) == []
  {
    if made != [] {
      NoCalls(made[1..], device);
    }
  }

  lemma {:induction false} OnlyRemoved<P>(ports: seq<P>, port: P)
    ensures forall p :: p in RemoveFirst(ports, port) ==> p in ports
  {
    if ports != [] && ports[0] != port {
      OnlyRemoved(ports[1..], port);
    }
  }

  // The ports after the first occurrence from i on was removed.
  function RemoveFrom<P(==)>(ports: seq<P>, i: nat, port: P): seq<P>
    requires i <= |ports|
  {
    ports[..i] + RemoveFirst(ports[i..], port)
  }

  lemma {:induction false} RemoveStart<P>(ports: seq<P>, port: P)
    ensures RemoveFrom(ports, 0, port) == RemoveFirst(ports, port)
  {
    assert ports[0..] == ports;
  }

  lemma {:induction false} RemoveNext<P>(ports: seq<P>, i: nat, port: P)
    requires i <= |ports|
    ensures RemoveFrom(ports, i, port) ==
            if i == |ports| then ports
            else if ports[i] == port then ports[..i] + ports[i + 1..]
            else RemoveFrom(ports, i + 1, port)
  {
    if i < |ports| {
      assert ports[i..][1..] == ports[i + 1..];
    }
  }

  lemma {:induction false} MoreCalls<D>(delivered: seq<Delivery<D>>, made: seq<Delivery<D>>, devices: set<D>,
                                        listening: set<D>)
    requires forall i :: 0 <= i < |made| ==> made[i].device in listening
    ensures forall d :: d in devices ==> CallsTo(delivered + made, d) == CallsTo(delivered, d) + CallsTo(made, d)
    ensures forall d :: d in devices && d !in listening ==> CallsTo(made, d) == []
  {
    forall d | d in devices
      ensures CallsTo(delivered + made, d) == CallsTo(delivered, d) + CallsTo(made, d)
      ensures d !in listening ==> CallsTo(made, d) == []
    {
      CallsSplit(delivered, made, d);
      if d !in listening {
        NoCalls(made, d);
      }
    }
  }

  // Only registered listeners are published to.
  lemma {:induction false} PublishedRegistered<D, P>(b: Bus<D, P>, o: Output, n: nat)
    ensures forall i :: 0 <= i < |Published(b, o, n)| ==> Published(b, o, n)[i].device in b.devices.Values
  {
    if n > 0 {
      PublishedRegistered(b, o, n - 1);
    }
  }

  lemma {:induction false} AllRegistered<D, P>(b: Bus<D, P>, outputs: seq<Output>)
    ensures forall i :: 0 <= i < |PublishedAll(b, outputs)| ==> PublishedAll(b, outputs)[i].device in b.devices.Values
  {
    if outputs != [] {
      PublishedRegistered(b, outputs[0], |b.gateways|);
      AllRegistered(b, outputs[1..]);
    }
  }

  // One call on a gateway listener's handler: an output of its local port.
  datatype Handling<P> = Handling(port: P, output: Output)

  /** Emitting an output calls the handler of every port, every occurrence once, in order. */
  function Handlings<P>(ports: seq<P>, o: Output): seq<Handling<P>> {
    if ports == [] then [] else Handlings(ports[..|ports| - 1], o) + [Handling(ports[|ports| - 1], o)]
  }

  lemma {:induction false} HandlingsAre<P>(ports: seq<P>, o: Output)
    ensures |Handlings(ports, o)| == |ports|
    ensures forall i :: 0 <= i < |ports| ==> Handlings(ports, o)[i] == Handling(ports[i], o)
  {
    if ports != [] {
      HandlingsAre(ports[..|ports| - 1], o);
    }
  }

  function HandlingsAll<P>(ports: seq<P>, outputs: seq<Output>): seq<Handling<P>> {
    if outputs == [] then [] else HandlingsAll(ports, outputs[..|outputs| - 1]) + Handlings(ports, outputs[|outputs| - 1])
  }

  lemma {:induction false} OneOutputMore<P>(log: seq<Handling<P>>, ports: seq<P>, outputs: seq<Output>, i: nat)
    requires i < |outputs|
    ensures log + HandlingsAll(ports, outputs[..i]) + Handlings(ports, outputs[i]) ==
            log + HandlingsAll(ports, outputs[..i + 1])
  {
    assert outputs[..i + 1][..i] == outputs[..i];
  }

  // How many of the listeners hand packets to the local port.
  function CountOn(ports: seq<GwSimDevicePort>, localPort: LocalPort): nat {
    if ports == [] then 0
    else CountOn(ports[..|ports| - 1], localPort) + if ports[|ports| - 1].localPort == localPort then 1 else 0
  }

  lemma {:induction false} CountAllOn(ports: seq<GwSimDevicePort>, localPort: LocalPort)
    requires forall p :: p in ports ==> p.localPort == localPort
    ensures CountOn(ports, localPort) == |ports|
  {
    if ports != [] {
      CountAllOn(ports[..|ports| - 1], localPort);
    }
  }

  // What the listeners, called one after the other, make of the state behind one local port.
  function Reached(input: State -> State, s: State, ports: seq<GwSimDevicePort>, localPort: LocalPort): State {
    if ports == [] then s
    else
      var t := Reached(input, s, ports[..|ports| - 1], localPort);
      if ports[|ports| - 1].localPort == localPort then input(t) else t
  }

  lemma {:induction false} OneMoreReached(input: State -> State, ports: seq<GwSimDevicePort>, i: nat)
    requires i < |ports|
    ensures forall s, localPort ::
      Reached(input, s, ports[..i + 1], localPort) ==
      (var t := Reached(input, s, ports[..i], localPort);
       if ports[i].localPort == localPort then input(t) else t)
  {
    assert ports[..i + 1][..i] == ports[..i];
  }

  ghost predicate IsInput(input: State -> State, h: EndpointsHash, from: DeviceId, call: GatewayCall, now: TimePoint) {
    forall s {:trigger Input(h, s, from, call, now)} :: input(s) == Input(h, s, from, call, now)
  }

  function Times(input: State -> State, s: State, n: nat): State {
    if n == 0 then s else input(Times(input, s, n - 1))
  }

  lemma {:induction false} ReachedIs(input: State -> State, h: EndpointsHash, s: State, ports: seq<GwSimDevicePort>,
                                     localPort: LocalPort, from: DeviceId, call: GatewayCall, now: TimePoint)
    requires IsInput(input, h, from, call, now)
    ensures Reached(input, s, ports, localPort) == Inputs(h, s, CountOn(ports, localPort), from, call, now)
  {
    ReachedCounts(input, s, ports, localPort);
    TimesIs(input, h, s, CountOn(ports, localPort), from, call, now);
  }

  lemma {:induction false} ReachedCounts(input: State -> State, s: State, ports: seq<GwSimDevicePort>,
                                         localPort: LocalPort)
    ensures Reached(input, s, ports, localPort) == Times(input, s, CountOn(ports, localPort))
  {
    if ports != [] {
      ReachedCounts(input, s, ports[..|ports| - 1], localPort);
    }
  }

  lemma {:induction false} TimesIs(input: State -> State, h: EndpointsHash, s: State, n: nat, from: DeviceId,
                                   call: GatewayCall, now: TimePoint)
    requires IsInput(input, h, from, call, now)
    ensures Times(input, s, n) == Inputs(h, s, n, from, call, now)
  {
    if n > 0 {
      TimesIs(input, h, s, n - 1, from, call, now);
      TimesNext(input, h, s, n, from, call, now);
    } else {
      NoTimes(input, h, s, n, from, call, now);
    }
  }

  lemma {:induction false} TimesNext(input: State -> State, h: EndpointsHash, s: State, n: nat, from: DeviceId,
                                     call: GatewayCall, now: TimePoint)
    requires IsInput(input, h, from, call, now) && n > 0
    requires Times(input, s, n - 1) == Inputs(h, s, n - 1, from, call, now)
    ensures Times(input, s, n) == Inputs(h, s, n, from, call, now)
  {
    InputsLast(h, s, n - 1, from, call, now);
  }

  lemma {:induction false} NoTimes(input: State -> State, h: EndpointsHash, s: State, n: nat, from: DeviceId,
                                   call: GatewayCall, now: TimePoint)
    requires n == 0
    ensures Times(input, s, n) == Inputs(h, s, n, from, call, now)
  {
    NoInputs(h, s, from, call, now);
  }

  // The state of the gateway that a local port belongs to.
  ghost function StateOf(localPort: LocalPort): State
    reads localPort, localPort.gateway
    reads if localPort.gateway == null then {} else {localPort.gateway.port, localPort.gateway.manager}
  {
    if localPort.gateway == null then EMPTY else localPort.gateway.View()
  }

  class GwSimDataBus {
    var nextDeviceId: nat
    var deviceListeners: map<DeviceId, GwSimDevice>
    var gatewayListeners: seq<GwSimDevicePort>
    // What the gateway listeners of this bus were called with, kept by themselves.
    ghost var pushed: seq<Push<GwSimDevicePort>>
    ghost var handled: seq<Handling<GwSimDevicePort>>

    constructor ()
      ensures View() == Bus(1, map[], []) && pushed == [] && handled == []
    {
      nextDeviceId, deviceListeners, gatewayListeners := 1, map[], [];
      pushed, handled := [], [];
    }

    function View(): Bus<GwSimDevice, GwSimDevicePort>
      reads `nextDeviceId, `deviceListeners, `gatewayListeners
    {
      Bus(nextDeviceId, deviceListeners, gatewayListeners)
    }

    method GetDeviceId() returns (id: DeviceId)
      requires nextDeviceId < ID_LIMIT
      modifies `nextDeviceId
      ensures id == old(nextDeviceId) && nextDeviceId == id + 1
    {
      id := nextDeviceId;
      nextDeviceId := nextDeviceId + 1;
    }

    method RegDeviceListener(device: GwSimDevice) returns (id: DeviceId)
      requires nextDeviceId < ID_LIMIT
      modifies `nextDeviceId, `deviceListeners
      ensures (View(), id) == Model.RegDeviceListener(old(View()), device)
    {
      id := GetDeviceId();
      if id !in deviceListeners {
        deviceListeners := deviceListeners[id := device];
      }
    }

    method RemoveDeviceListener(id: DeviceId)
      modifies `deviceListeners
      ensures View() == Model.RemoveDeviceListener(old(View()), id)
    {
      deviceListeners := deviceListeners - {id};
    }

    method RegGatewayListener(port: GwSimDevicePort)
      modifies `gatewayListeners
      ensures View() == Model.RegGatewayListener(old(View()), port)
    {
      gatewayListeners := gatewayListeners + [port];
    }

    // The first occurrence is searched for, and taken out if there is one.
    method RemoveGatewayListener(port: GwSimDevicePort)
      modifies `gatewayListeners
      ensures View() == Model.RemoveGatewayListener(old(View()), port)
    {
      var i := 0;
      RemoveStart(gatewayListeners, port);
      while i < |gatewayListeners| && gatewayListeners[i] != port
        invariant i <= |gatewayListeners| && gatewayListeners == old(gatewayListeners)
        invariant RemoveFrom(gatewayListeners, i, port) == RemoveFirst(gatewayListeners, port)
      {
        RemoveNext(gatewayListeners, i, port);
        i := i + 1;
      }
      RemoveNext(gatewayListeners, i, port);
      if i < |gatewayListeners| {
        gatewayListeners := gatewayListeners[..i] + gatewayListeners[i + 1..];
      }
    }

    // The local ports, gateways and managers that a packet published here can reach.
    ghost function LocalPorts(): set<LocalPort>
      reads `gatewayListeners
    {
      set p | p in gatewayListeners :: p.localPort
    }

    ghost function Gateways(): set<Gateway?>
      reads `gatewayListeners, LocalPorts()`gateway
    {
      set p | p in gatewayListeners :: p.localPort.gateway
    }

    ghost function Managers(): set<ServerStreamManager>
      reads `gatewayListeners, LocalPorts()`gateway
    {
      set p | p in gatewayListeners && p.localPort.gateway != null :: p.localPort.gateway.manager
    }

    ghost predicate Connected()
      reads `gatewayListeners, LocalPorts()`gateway, Managers()`gateway
      reads (set g | g in Gateways() && g != null :: g.port)`gateway
    {
      forall p :: p in gatewayListeners ==> p.bus == this && p.localPort.Ready()
    }

    /**
     Every gateway listener is called with the packet, every occurrence once and in
     order, and hands it to its own local port: each local port gets it once for
     each of its listeners, whichever gateways the ports belong to.
     */
    method PublishDeviceData(h: EndpointsHash, from: DeviceId, call: GatewayCall, now: TimePoint)
      requires Connected()
      modifies `pushed, LocalPorts()`streamStore, Gateways(), Managers()`streamCache
      ensures Connected() && pushed == old(pushed) + Pushes(gatewayListeners, from, call)
      ensures forall p :: p in gatewayListeners ==>
        && p.localPort.gateway == old(p.localPort.gateway)
        && StateOf(p.localPort) ==
           Inputs(h, old(StateOf(p.localPort)), CountOn(gatewayListeners, p.localPort), from, call, now)
    {
      ghost var input := (s: State) => Input(h, s, from, call, now);
      forall lp | lp in LocalPorts()
        ensures Reached(input, StateOf(lp), gatewayListeners, lp) ==
                Inputs(h, StateOf(lp), CountOn(gatewayListeners, lp), from, call, now)
      {
        ReachedIs(input, h, StateOf(lp), gatewayListeners, lp, from, call, now);
      }
      CallAll(input, h, from, call, now);
    }

    method CallAll(ghost input: State -> State, h: EndpointsHash, from: DeviceId, call: GatewayCall, now: TimePoint)
      requires Connected() && IsInput(input, h, from, call, now)
      modifies `pushed, LocalPorts()`streamStore, Gateways(), Managers()`streamCache
      ensures Connected() && pushed == old(pushed) + Pushes(gatewayListeners, from, call)
      ensures forall p :: p in gatewayListeners ==> p.localPort.gateway == old(p.localPort.gateway)
      ensures forall lp :: lp in LocalPorts() ==>
        StateOf(lp) == Reached(input, old(StateOf(lp)), gatewayListeners, lp)
    {
      for i := 0 to |gatewayListeners|
        invariant Connected() && pushed == old(pushed) + Pushes(gatewayListeners[..i], from, call)
        invariant forall p :: p in gatewayListeners ==> p.localPort.gateway == old(p.localPort.gateway)
        invariant forall lp :: lp in LocalPorts() ==>
          StateOf(lp) == Reached(input, old(StateOf(lp)), gatewayListeners[..i], lp)
      {
        OneMoreReached(input, gatewayListeners, i);
        OnePushMore(old(pushed), gatewayListeners, i, from, call);
        PushTo(input, gatewayListeners[i], h, from, call, now);
      }
      assert gatewayListeners[..|gatewayListeners|] == gatewayListeners;
    }

    // One listener is called: only its own gateway takes notice.
    method PushTo(ghost input: State -> State, port: GwSimDevicePort, h: EndpointsHash, from: DeviceId,
                  call: GatewayCall, now: TimePoint)
      requires Connected() && port in gatewayListeners && IsInput(input, h, from, call, now)
      modifies `pushed, LocalPorts()`streamStore, Gateways(), Managers()`streamCache
      ensures Connected() && pushed == old(pushed) + [Push(port, from, call)]
      ensures forall p :: p in gatewayListeners ==> p.localPort.gateway == old(p.localPort.gateway)
      ensures forall lp :: lp in LocalPorts() ==>
        StateOf(lp) == if port.localPort == lp then input(old(StateOf(lp))) else old(StateOf(lp))
    {
      port.PushData(h, from, call, now);
    }

    method PublishGwData(to: DeviceId, call: ClientCall)
      modifies (if to in deviceListeners then {deviceListeners[to]} else {})`received
      ensures to in deviceListeners ==> deviceListeners[to].received == old(deviceListeners[to].received) + [call]
    {
      if to in deviceListeners {
        deviceListeners[to].PushData(call);
      }
    }
  }

  class GwSimDevice {
    const bus: GwSimDataBus
    var deviceId: DeviceId
    var received: seq<ClientCall>

    constructor (bus: GwSimDataBus)
      requires bus.nextDeviceId < ID_LIMIT
      modifies bus`nextDeviceId, bus`deviceListeners
      ensures (bus.View(), deviceId) == Model.RegDeviceListener(old(bus.View()), this)
      ensures this.bus == bus && received == []
    {
      this.bus, deviceId, received := bus, 0, [];
      new;
      deviceId := bus.RegDeviceListener(this);
    }

    // The destructor.
    method Destroy()
      modifies bus`deviceListeners
      ensures bus.View() == Model.RemoveDeviceListener(old(bus.View()), deviceId)
    {
      bus.RemoveDeviceListener(deviceId);
    }

    method ToServerId(h: EndpointsHash, client: ClientId, serverId: ServerId, data: DataBuffer, now: TimePoint)
      requires bus.Connected()
      modifies bus`pushed, bus.LocalPorts()`streamStore, bus.Gateways(), bus.Managers()`streamCache
      ensures var call := GatewayCall.ToServerId(client, serverId, data);
        && bus.Connected() && bus.pushed == old(bus.pushed) + Pushes(bus.gatewayListeners, deviceId, call)
        && (forall p :: p in bus.gatewayListeners ==>
              && p.localPort.gateway == old(p.localPort.gateway)
              && StateOf(p.localPort) ==
                 Inputs(h, old(StateOf(p.localPort)), CountOn(bus.gatewayListeners, p.localPort), deviceId, call, now))
    {
      bus.PublishDeviceData(h, deviceId, GatewayCall.ToServerId(client, serverId, data), now);
    }

    method ToServer(h: EndpointsHash, client: ClientId, endpoints: ServerEndpoints, data: DataBuffer, now: TimePoint)
      requires bus.Connected()
      modifies bus`pushed, bus.LocalPorts()`streamStore, bus.Gateways(), bus.Managers()`streamCache
      ensures var call := GatewayCall.ToServer(client, endpoints, data);
        && bus.Connected() && bus.pushed == old(bus.pushed) + Pushes(bus.gatewayListeners, deviceId, call)
        && (forall p :: p in bus.gatewayListeners ==>
              && p.localPort.gateway == old(p.localPort.gateway)
              && StateOf(p.localPort) ==
                 Inputs(h, old(StateOf(p.localPort)), CountOn(bus.gatewayListeners, p.localPort), deviceId, call, now))
    {
      bus.PublishDeviceData(h, deviceId, GatewayCall.ToServer(client, endpoints, data), now);
    }

    // The call is parsed and emitted to whoever listens to the device.
    method PushData(call: ClientCall)
      modifies `received
      ensures received == old(received) + [call]
    {
      received := received + [call];
    }
  }

  class GwSimDevicePort {
    const bus: GwSimDataBus
    const localPort: LocalPort

    constructor (bus: GwSimDataBus, localPort: LocalPort)
      modifies bus`gatewayListeners
      ensures bus.View() == Model.RegGatewayListener(old(bus.View()), this)
      ensures this.bus == bus && this.localPort == localPort
    {
      this.bus, this.localPort := bus, localPort;
      new;
      bus.RegGatewayListener(this);
    }

    // The destructor.
    method Destroy()
      modifies bus`gatewayListeners
      ensures bus.View() == Model.RemoveGatewayListener(old(bus.View()), this)
    {
      bus.RemoveGatewayListener(this);
    }

    method PushData(h: EndpointsHash, device: DeviceId, call: GatewayCall, now: TimePoint)
      requires localPort.Ready()
      modifies bus`pushed, localPort`streamStore, localPort.gateway, localPort.gateway.manager`streamCache
      ensures bus.pushed == old(bus.pushed) + [Push(this, device, call)]
      ensures localPort.Ready() && localPort.gateway == old(localPort.gateway)
      ensures localPort.gateway.View() == Input(h, old(localPort.gateway.View()), device, call, now)
    {
      bus.pushed := bus.pushed + [Push(this, device, call)];
      localPort.Input(h, device, call, now);
    }

    // The handler of the local port's output event.
    method OnOutput(o: Output)
      modifies bus`handled, (if o.device in bus.deviceListeners then {bus.deviceListeners[o.device]} else {})`received
      ensures bus.handled == old(bus.handled) + [Handling(this, o)]
      ensures o.device in bus.deviceListeners ==>
        bus.deviceListeners[o.device].received == old(bus.deviceListeners[o.device].received) + [o.call]
    {
      bus.handled := bus.handled + [Handling(this, o)];
      bus.PublishGwData(o.device, o.call);
    }
  }
}
