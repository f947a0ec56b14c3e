/** Over runs of the whole system: what devices have received, and which replies it is. */
module Downlink {
  import opened Wire
  import opened GatewayModel
  import opened GatewayInvariant
  import opened GatewaySteps
  import opened FanOut
  import opened BusModel
  import opened SystemModel
  import opened EndToEnd
  import opened Uplink
  import opened Order

  // The calls that came from one session, in order.
  function CallsFrom<D>(made: seq<Delivery<D>>, g: SessionId): seq<ClientCall> {
    if made == [] then [] else (if made[0].session == g then [made[0].call] else []) + CallsFrom(made[1..], g)
  }

  function CallCopies(call: ClientCall, n: nat): seq<ClientCall> {
    if n == 0 then [] else [call] + CallCopies(call, n - 1)
  }

  // The session is stored and tied to the stream, and the device that opened it is registered.
  ghost predicate CanReceive<D, P>(y: System<D, P>, g: SessionId, st: StreamRef) {
    && Live(y.gateway, g) && TiedTo(y.gateway, y.gateway.sessions[g].key, st)
    && g < |y.senders| && Registered(y, y.senders[g])
  }

  // What an event brings a session's device: a reply of the session's stream, once for each attached port.
  ghost function ReplyNow<D, P>(y: System<D, P>, e: SystemEvent<D, P>, g: SessionId): seq<ClientCall> {
    if e.GatewayEvent? && e.event.Replied? && CanReceive(y, g, e.event.stream)
    then CallCopies(FromServer(y.gateway.sessions[g].key.client, e.event.data), |y.bus.gateways|)
    else []
  }

  /** The replies of a session's stream while it was tied and its device registered, read off the run. */
  ghost function RepliedTo<D, P>(h: EndpointsHash, events: seq<SystemEvent<D, P>>, g: SessionId): seq<ClientCall>
    decreases |events|
  {
    if events == [] then []
    else
      var before := events[..|events| - 1];
      RepliedTo(h, before, g) + ReplyNow(SystemRun<D, P>(h, Start(), before), events[|events| - 1], g)
  }

  lemma {:induction false} CallsFromBoth<D>(first: seq<Delivery<D>>, second: seq<Delivery<D>>, g: SessionId)
    ensures CallsFrom(first + second, g) == CallsFrom(first, g) + CallsFrom(second, g)
  {
    if first == [] {
      assert first + second == second;
    } else {
      assert (first + second)[1..] == first[1..] + second && (first + second)[0] == first[0];
      CallsFromBoth(first[1..], second, g);
      var head := if first[0].session == g then [first[0].call] else [];
      assert CallsFrom(first + second, g) == head + (CallsFrom(first[1..], g) + CallsFrom(second, g));
    }
  }

  lemma {:induction false} FromOutput<D, P>(b: Bus<D, P>, o: Output, n: nat, g: SessionId)
    ensures CallsFrom(Published(b, o, n), g) ==
            if o.device in b.devices && o.session == g then CallCopies(o.call, n) else []
  {
    if n > 0 {
      FromOutput(b, o, n - 1, g);
      CallsFromBoth(PublishGwData(b, o), Published(b, o, n - 1), g);
      if o.device in b.devices {
        assert [Delivery(b.devices[o.device], o.call, o.session)][1..] == [];
      }
    }
  }

  // With distinct sessions, only one output is for the session.
  lemma {:induction false} FromOutputs<D, P>(b: Bus<D, P>, outputs: seq<Output>, j: nat, g: SessionId)
    requires forall i, k :: 0 <= i < k < |outputs| ==> outputs[i].session != outputs[k].session
    requires j <= |outputs|
    requires if j < |outputs| then outputs[j].session == g else forall i :: 0 <= i < |outputs| ==> outputs[i].session != g
    ensures CallsFrom(PublishedAll(b, outputs), g) ==
            if j < |outputs| && outputs[j].device in b.devices then CallCopies(outputs[j].call, |b.gateways|) else []
    decreases |outputs|
  {
    if outputs != [] {
      var rest := outputs[1..];
      FromOutput(b, outputs[0], |b.gateways|, g);
      FromOutputs(b, rest, if j == 0 then |rest| else j - 1, g);
      CallsFromBoth(Published(b, outputs[0], |b.gateways|), PublishedAll(b, rest), g);
    }
  }

  // The outputs of one datum bring the session's device its reply.
  lemma {:induction false} OutputsBring<D, P>(y: System<D, P>, st: StreamRef, data: DataBuffer, outputs: seq<Output>,
                                              g: SessionId)
    requires SendersOk(y) && ExactReplies(y.gateway, st, data, outputs)
    ensures CallsFrom(PublishedAll(y.bus, outputs), g) ==
            if CanReceive(y, g, st)
            then CallCopies(FromServer(y.gateway.sessions[g].key.client, data), |y.bus.gateways|)
            else []
  {
    var s := y.gateway;
    if Live(s, g) && TiedTo(s, s.sessions[g].key, st) {
      var key := s.sessions[g].key;
      assert SenderOk(y, g);
      var j :| 0 <= j < |outputs| && outputs[j] == ReplyTo(s, key, data);
      FromOutputs(y.bus, outputs, j, g);
      StillThere(y, g);
    } else {
      forall i | 0 <= i < |outputs| ensures outputs[i].session != g {
        assert TiedTo(s, s.sessions[outputs[i].session].key, st);
      }
      FromOutputs(y.bus, outputs, |outputs|, g);
    }
  }

  lemma {:induction false} StillThere<D, P>(y: System<D, P>, g: SessionId)
    requires IdsOk(y.bus, y.ids) && g < |y.senders| && g < |y.gateway.sessions| && SenderOk(y, g)
    ensures Registered(y, y.senders[g]) <==> y.gateway.sessions[g].key.device in y.bus.devices
  {
  }

  lemma {:induction false} NoOutputsBring<D, P>(y: System<D, P>, g: SessionId)
    ensures CallsFrom(y.delivered + PublishedAll(y.bus, []), g) == CallsFrom(y.delivered, g)
  {
    assert y.delivered + PublishedAll(y.bus, []) == y.delivered;
  }

  lemma {:induction false} ReplyBrings<D, P>(h: EndpointsHash, y: System<D, P>, st: StreamRef, data: DataBuffer,
                                             now: TimePoint, g: SessionId)
    requires SystemOk(h, y)
    ensures var e := GatewayEvent(Replied(st, data, now));
      CallsFrom(SystemStep(h, y, e).delivered, g) == CallsFrom(y.delivered, g) + ReplyNow(y, e, g)
  {
    var e := Replied(st, data, now);
    var outputs := NewOutputs(y.gateway, Step(h, y.gateway, e));
    EventIs(h, y, e);
    if st < |y.gateway.streams| {
      ReplyOutputs(h, y.gateway, st, data, now);
      OutputsBring(y, st, data, outputs, g);
    } else {
      NoStreamBrings(h, y, e, g);
    }
    CallsFromBoth(y.delivered, PublishedAll(y.bus, outputs), g);
  }

  lemma {:induction false} NoStreamBrings<D, P>(h: EndpointsHash, y: System<D, P>, e: Event, g: SessionId)
    requires Inv(h, y.gateway) && e.Replied? && e.stream >= |y.gateway.streams|
    ensures NewOutputs(y.gateway, Step(h, y.gateway, e)) == [] && ReplyNow(y, GatewayEvent(e), g) == []
    ensures CallsFrom(PublishedAll(y.bus, []), g) == []
  {
    NobodyTied(h, y.gateway, e.stream);
  }

  lemma {:induction false} NobodyTied(h: EndpointsHash, s: State, st: StreamRef)
    requires Inv(h, s) && st >= |s.streams|
    ensures forall key :: !TiedTo(s, key, st)
  {
    forall key ensures !TiedTo(s, key, st) {
      assert key in s.store ==> TiedOk(s.store[key].stream, s.streams);
    }
  }

  lemma {:induction false} StepBrings<D, P>(h: EndpointsHash, y: System<D, P>, e: SystemEvent<D, P>, g: SessionId)
    requires SystemOk(h, y)
    ensures CallsFrom(SystemStep(h, y, e).delivered, g) == CallsFrom(y.delivered, g) + ReplyNow(y, e, g)
  {
    assert CallsFrom(y.delivered, g) + [] == CallsFrom(y.delivered, g);
    match e
    case GatewayEvent(event) =>
      if event.Replied? {
        ReplyBrings(h, y, event.stream, event.data, event.now, g);
      } else if !event.Packet? {
        QuietOutputs(h, y.gateway, event);
        NoOutputsBring(y, g);
      }
    case _ =>
  }

  lemma {:induction false} RunBrings<D, P>(h: EndpointsHash, events: seq<SystemEvent<D, P>>, g: SessionId)
    ensures CallsFrom(SystemRun<D, P>(h, Start(), events).delivered, g) == RepliedTo(h, events, g)
    decreases |events|
  {
    if events != [] {
      var before := events[..|events| - 1];
      FromLast(h, events);
      SystemIsOk(h, before);
      RunBrings(h, before, g);
      StepBrings(h, SystemRun<D, P>(h, Start(), before), events[|events| - 1], g);
    }
  }

  /**
   Over any run of devices, ports and gateway, for each session: what came from it
   is, in order and once for each attached port, what its stream replied while the
   session was stored and tied and its device registered; and all of it was
   received by the device that opened the session, and by nobody else.
   */
  lemma {:induction false} DownlinkConserved<D, P>(h: EndpointsHash, events: seq<SystemEvent<D, P>>, g: SessionId)
    ensures var y := SystemRun<D, P>(h, Start(), events);
      && CallsFrom(y.delivered, g) == RepliedTo(h, events, g)
      && (forall i :: 0 <= i < |y.delivered| && y.delivered[i].session == g ==>
            g < |y.senders| && y.delivered[i].device == y.senders[g])
  {
    var y := SystemRun<D, P>(h, Start(), events);
    RunBrings(h, events, g);
    SystemIsOk(h, events);
    forall i | 0 <= i < |y.delivered| && y.delivered[i].session == g
      ensures g < |y.senders| && y.delivered[i].device == y.senders[g]
    {
      assert DeliveryOk(y, y.delivered[i]);
    }
  }

  /* ---- The order of deliveries ---- */

  // Of two deliveries the earlier one comes from the same output or from an earlier one.
  lemma {:induction false} PublishedInOrder<D, P>(b: Bus<D, P>, outputs: seq<Output>, i: nat, j: nat)
    returns (k: nat, l: nat)
    requires i < j < |PublishedAll(b, outputs)|
    ensures k <= l < |outputs|
    ensures PublishedAll(b, outputs)[i].session == outputs[k].session
    ensures PublishedAll(b, outputs)[j].session == outputs[l].session
    decreases |outputs|
  {
    PublishedIs(b, outputs[0], |b.gateways|);
    var first := |Published(b, outputs[0], |b.gateways|)|;
    if i < first {
      k := 0;
      l := PublishedFrom(b, outputs, j);
    } else {
      k, l := PublishedInOrder(b, outputs[1..], i - first, j - first);
      k, l := k + 1, l + 1;
    }
  }

  /**
   In every reachable state the deliveries of one datum come in the order in which
   their sessions were tied to the stream, those of one session next to each other.
   */
  lemma {:induction false} DeliveriesInOrder<D, P>(h: EndpointsHash, events: seq<SystemEvent<D, P>>, st: StreamRef,
                                                   data: DataBuffer, now: TimePoint, i: nat, j: nat)
    requires st < |SystemRun<D, P>(h, Start(), events).gateway.streams|
    ensures var y := SystemRun<D, P>(h, Start(), events); var inner := GatewayEvents<D, P>(h, Start(), events);
      var all := SystemStep(h, y, GatewayEvent(Replied(st, data, now))).delivered;
      |y.delivered| <= i < j < |all| ==> TiedAt(h, inner, all[i].session) <= TiedAt(h, inner, all[j].session)
  {
    var y := SystemRun<D, P>(h, Start(), events);
    GatewayRuns<D, P>(h, Start(), events);
    DeliveredInOrder(h, y, GatewayEvents<D, P>(h, Start(), events), st, data, now, i, j);
  }

  lemma {:induction false} DeliveredInOrder<D, P>(h: EndpointsHash, y: System<D, P>, inner: seq<Event>, st: StreamRef,
                                                  data: DataBuffer, now: TimePoint, i: nat, j: nat)
    requires y.gateway == Run(h, EMPTY, inner) && st < |y.gateway.streams|
    ensures var all := SystemStep(h, y, GatewayEvent(Replied(st, data, now))).delivered;
      |y.delivered| <= i < j < |all| ==> TiedAt(h, inner, all[i].session) <= TiedAt(h, inner, all[j].session)
  {
    var made := MadeFor(y.gateway, st, data);
    Reachable(h, inner);
    NewRepliesAre(h, y.gateway, st, data, now);
    EventIs(h, y, Replied(st, data, now));
    MadeInOrder(h, inner, st, data);
    PublishedKeepsOrder(y.bus, y.delivered, made, g => TiedAt(h, inner, g), i, j);
  }

  lemma {:induction false} NewRepliesAre(h: EndpointsHash, s: State, st: StreamRef, data: DataBuffer, now: TimePoint)
    requires Inv(h, s) && st < |s.streams|
    ensures NewOutputs(s, Step(h, s, Replied(st, data, now))) == MadeFor(s, st, data)
  {
    RepliesMade(h, s, st, data, now);
  }

  lemma {:induction false} PublishedKeepsOrder<D, P>(b: Bus<D, P>, before: seq<Delivery<D>>, outputs: seq<Output>,
                                                     at: SessionId -> nat, i: nat, j: nat)
    requires forall k, l :: 0 <= k < l < |outputs| ==> at(outputs[k].session) <= at(outputs[l].session)
    ensures var all := before + PublishedAll(b, outputs);
      |before| <= i < j < |all| ==> at(all[i].session) <= at(all[j].session)
  {
    var n := |before|;
    if n <= i < j < n + |PublishedAll(b, outputs)| {
      var k, l := PublishedInOrder(b, outputs, i - n, j - n);
    }
  }
}
