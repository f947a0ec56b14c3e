/** The simulator's data bus: device ids, device listeners and gateway listeners. */
module BusModel {
  import opened Wire

  // The bus, whatever its device listeners and gateway listeners are.
  datatype Bus<D, P> = Bus(nextId: nat, devices: map<DeviceId, D>, gateways: seq<P>)

  // In a run a device is named by how many devices were constructed before it.
  type DeviceRef = nat
  type PortRef = nat
  type SimBus = Bus<DeviceRef, PortRef>

  const EMPTY_BUS: SimBus := Bus(1, map[], [])

  // The id after the last one that may be handed out.
  const ID_LIMIT := 255

  function RegDeviceListener<D, P>(b: Bus<D, P>, device: D): (Bus<D, P>, DeviceId)
    requires b.nextId < ID_LIMIT
  {
    var id := b.nextId;
    (b.(nextId := id + 1, devices := if id in b.devices then b.devices else b.devices[id := device]), id)
  }

  function RemoveDeviceListener<D, P>(b: Bus<D, P>, id: DeviceId): Bus<D, P> {
    b.(devices := b.devices - {id})
  }

  function RegGatewayListener<D, P>(b: Bus<D, P>, port: P): Bus<D, P> {
    b.(gateways := b.gateways + [port])
  }

  function RemoveFirst<P(==)>(ports: seq<P>, port: P): seq<P> {
    if ports == [] then []
    else if ports[0] == port then ports[1..]
    else [ports[0]] + RemoveFirst(ports[1..], port)
  }

  function RemoveGatewayListener<D, P(==)>(b: Bus<D, P>, port: P): Bus<D, P> {
    b.(gateways := RemoveFirst(b.gateways, port))
  }

  // One call on a gateway listener: a packet from a device.
  datatype Push<P> = Push(port: P, device: DeviceId, call: GatewayCall)

  /** Publishing a packet calls every listener, every occurrence once, in order. */
  function Pushes<P>(ports: seq<P>, device: DeviceId, call: GatewayCall): seq<Push<P>> {
    if ports == [] then []
    else Pushes(ports[..|ports| - 1], device, call) + [Push(ports[|ports| - 1], device, call)]
  }

  lemma {:induction false} PushesAre<P>(ports: seq<P>, device: DeviceId, call: GatewayCall)
    ensures |Pushes(ports, device, call)| == |ports|
    ensures forall i :: 0 <= i < |ports| ==> Pushes(ports, device, call)[i] == Push(ports[i], device, call)
  {
    if ports != [] {
      PushesAre(ports[..|ports| - 1], device, call);
    }
  }

  lemma {:induction false} OnePushMore<P>(log: seq<Push<P>>, ports: seq<P>, i: nat, device: DeviceId, call: GatewayCall)
    requires i < |ports|
    ensures log + Pushes(ports[..i], device, call) + [Push(ports[i], device, call)] == log + Pushes(ports[..i + 1], device, call)
  {
    assert ports[..i + 1][..i] == ports[..i];
  }

  datatype BusEvent =
    | DeviceAdded
    | DeviceRemoved(id: DeviceId)
    | PortAdded(port: PortRef)
    | PortRemoved(port: PortRef)

  // The bus, and the ids it handed out, in order.
  function Apply(b: SimBus, given: seq<DeviceId>, e: BusEvent): (SimBus, seq<DeviceId>) {
    match e
    case DeviceAdded =>
      if b.nextId < ID_LIMIT then
        var (b', id) := RegDeviceListener(b, |given|);
        (b', given + [id])
      else (b, given)
    case DeviceRemoved(id) => (RemoveDeviceListener(b, id), given)
    case PortAdded(port) => (RegGatewayListener(b, port), given)
    case PortRemoved(port) => (RemoveGatewayListener(b, port), given)
  }

  function ApplyAll(b: SimBus, given: seq<DeviceId>, events: seq<BusEvent>): (SimBus, seq<DeviceId>)
    decreases |events|
  {
    if events == [] then (b, given)
    else
      var (b', given') := Apply(b, given, events[0]);
      ApplyAll(b', given', events[1..])
  }

  // The n-th device got id n + 1, and a live id leads to the device that got it.
  ghost predicate BusOk(b: SimBus, given: seq<DeviceId>) {
    && b.nextId == |given| + 1 <= ID_LIMIT
    && (forall n :: 0 <= n < |given| ==> given[n] == n + 1)
    && (forall id :: id in b.devices ==> b.devices[id] < |given| && given[b.devices[id]] == id)
  }

  lemma {:induction false} ApplyKeeps(b: SimBus, given: seq<DeviceId>, e: BusEvent)
    requires BusOk(b, given)
    ensures var (b', given') := Apply(b, given, e); BusOk(b', given') && given <= given'
  {
  }

  lemma {:induction false} ApplyAllKeeps(b: SimBus, given: seq<DeviceId>, events: seq<BusEvent>)
    requires BusOk(b, given)
    ensures var (b', given') := ApplyAll(b, given, events); BusOk(b', given') && given <= given'
    decreases |events|
  {
    if events != [] {
      ApplyKeeps(b, given, events[0]);
      var (b', given') := Apply(b, given, events[0]);
      ApplyAllKeeps(b', given', events[1..]);
    }
  }

  /**
   Over any registrations and removals the ids handed out are distinct, strictly
   increasing and within 1..254; the next one is not in use, so registering
   always stores the new listener; and a live id leads to the device it was given to.
   */
  lemma {:induction false} IdsNeverCollide(events: seq<BusEvent>)
    ensures var (b, given) := ApplyAll(EMPTY_BUS, [], events);
      && (forall n :: 0 <= n < |given| ==> 1 <= given[n] <= 254)
      && (forall m, n :: 0 <= m < n < |given| ==> given[m] < given[n])
      && (forall id :: id in b.devices ==> b.devices[id] < |given| && given[b.devices[id]] == id)
      && (b.nextId < ID_LIMIT ==>
            var (b', id) := RegDeviceListener(b, |given|);
            id !in b.devices && b'.devices == b.devices[id := |given|])
  {
    ApplyAllKeeps(EMPTY_BUS, [], events);
  }

  /** Removing a gateway listener takes out its first occurrence and keeps the rest in order. */
  lemma {:induction false} RemoveFirstIs<P>(ports: seq<P>, port: P) returns (i: nat)
    requires port in ports
    ensures i < |ports| && ports[i] == port && port !in ports[..i]
    ensures RemoveFirst(ports, port) == ports[..i] + ports[i + 1..]
  {
    if ports[0] == port {
      i := 0;
    } else {
      i := RemoveFirstIs(ports[1..], port);
      i := i + 1;
      assert ports[..i] == [ports[0]] + ports[1..][..i - 1];
      assert ports[i + 1..] == ports[1..][i..];
    }
  }

  /** Removing a listener that is not there changes nothing. */
  lemma {:induction false} RemoveAbsent<P>(ports: seq<P>, port: P)
    requires port !in ports
    ensures RemoveFirst(ports, port) == ports
  {
    if ports != [] {
      RemoveAbsent(ports[1..], port);
    }
  }

  /* ---- Who is registered, told from the events ---- */

  lemma {:induction false} ApplyLast(b: SimBus, given: seq<DeviceId>, events: seq<BusEvent>)
    requires events != []
    ensures var (b', given') := ApplyAll(b, given, events[..|events| - 1]);
      ApplyAll(b, given, events) == Apply(b', given', events[|events| - 1])
    decreases |events|
  {
    if |events| > 1 {
      var (b1, given1) := Apply(b, given, events[0]);
      assert events[1..][..|events| - 2] == events[..|events| - 1][1..];
      ApplyLast(b1, given1, events[1..]);
    }
  }

  /** How often a port is registered: its registrations, less its removals that found it. */
  function Registrations(events: seq<BusEvent>, port: PortRef): nat {
    if events == [] then 0
    else
      var n, e := Registrations(events[..|events| - 1], port), events[|events| - 1];
      if e == PortAdded(port) then n + 1
      else if e == PortRemoved(port) && n > 0 then n - 1
      else n
  }

  lemma {:induction false} RemoveFirstCount<P>(ports: seq<P>, port: P, p: P)
    ensures multiset(RemoveFirst(ports, port))[p] ==
            if p == port && p in ports then multiset(ports)[p] - 1 else multiset(ports)[p]
    ensures |RemoveFirst(ports, port)| == if port in ports then |ports| - 1 else |ports|
  {
    if port in ports {
      var i := RemoveFirstIs(ports, port);
      assert ports == ports[..i] + [port] + ports[i + 1..];
      assert multiset(ports) == multiset(ports[..i]) + multiset([port]) + multiset(ports[i + 1..]);
    } else {
      RemoveAbsent(ports, port);
    }
  }

  // What one event does to the gateway listeners.
  ghost predicate ListenersFollow(ports: seq<PortRef>, ports': seq<PortRef>, e: BusEvent, i: nat) {
    match e
    case PortAdded(port) => ports' == ports + [port]
    case PortRemoved(port) =>
      if port in ports then
        i < |ports| && ports[i] == port && port !in ports[..i] && ports' == ports[..i] + ports[i + 1..]
      else ports' == ports
    case _ => ports' == ports
  }

  /**
   Over any run a new listener joins behind the others, a removal takes out the
   first occurrence if there is one, and nothing else changes the listeners; so each
   port is listening as often as it was registered and not removed.
   */
  lemma {:induction false} ListenersAre(events: seq<BusEvent>, e: BusEvent, port: PortRef) returns (i: nat)
    ensures var b := ApplyAll(EMPTY_BUS, [], events).0;
      && ListenersFollow(b.gateways, ApplyAll(EMPTY_BUS, [], events + [e]).0.gateways, e, i)
      && multiset(b.gateways)[port] == Registrations(events, port)
  {
    var b := ApplyAll(EMPTY_BUS, [], events).0;
    assert (events + [e])[..|events + [e]| - 1] == events;
    ApplyLast(EMPTY_BUS, [], events + [e]);
    ListenersCount(events, port);
    i := 0;
    if e.PortRemoved? {
      if e.port in b.gateways {
        i := RemoveFirstIs(b.gateways, e.port);
      } else {
        RemoveAbsent(b.gateways, e.port);
      }
    }
  }

  lemma {:induction false} ListenersCount(events: seq<BusEvent>, port: PortRef)
    ensures multiset(ApplyAll(EMPTY_BUS, [], events).0.gateways)[port] == Registrations(events, port)
  {
    if events != [] {
      var before, e := events[..|events| - 1], events[|events| - 1];
      ListenersCount(before, port);
      ApplyLast(EMPTY_BUS, [], events);
      var b := ApplyAll(EMPTY_BUS, [], before).0;
      match e
      case PortAdded(p) => assert multiset(b.gateways + [p]) == multiset(b.gateways) + multiset([p]);
      case PortRemoved(p) => RemoveFirstCount(b.gateways, p, port);
      case _ =>
    }
  }

  // An id that was handed out and leads nowhere is never used again.
  lemma {:induction false} NobodyAgain(b: SimBus, given: seq<DeviceId>, events: seq<BusEvent>, id: DeviceId)
    requires id < b.nextId && id !in b.devices
    ensures id !in ApplyAll(b, given, events).0.devices
    decreases |events|
  {
    if events != [] {
      var (b1, given1) := Apply(b, given, events[0]);
      NobodyAgain(b1, given1, events[1..], id);
    }
  }

  lemma {:induction false} ApplyBoth(b: SimBus, given: seq<DeviceId>, first: seq<BusEvent>, then': seq<BusEvent>)
    ensures var (b1, given1) := ApplyAll(b, given, first);
      ApplyAll(b, given, first + then') == ApplyAll(b1, given1, then')
    decreases |first|
  {
    if first == [] {
      assert first + then' == then';
    } else {
      var (b1, given1) := Apply(b, given, first[0]);
      assert (first + then')[1..] == first[1..] + then';
      ApplyBoth(b1, given1, first[1..], then');
    }
  }

  /** An id that was removed after it was handed out leads nowhere to the end of any run. */
  lemma {:induction false} RemovedForGood(before: seq<BusEvent>, id: DeviceId, after: seq<BusEvent>)
    requires id in ApplyAll(EMPTY_BUS, [], before).1
    ensures id !in ApplyAll(EMPTY_BUS, [], before + [DeviceRemoved(id)] + after).0.devices
  {
    ApplyAllKeeps(EMPTY_BUS, [], before);
    var all := before + [DeviceRemoved(id)];
    assert all[..|all| - 1] == before;
    ApplyLast(EMPTY_BUS, [], all);
    ApplyBoth(EMPTY_BUS, [], all, after);
    var (b1, given1) := ApplyAll(EMPTY_BUS, [], all);
    NobodyAgain(b1, given1, after, id);
  }
}
