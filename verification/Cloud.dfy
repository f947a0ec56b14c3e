/** The servers the gateway adds to its cloud and to Aether. */
module Cloud {
  import opened Wire
  import opened Flatten
  import opened GatewayModel
  import opened GatewayInvariant
  import opened GatewaySteps
  import opened FanOut
  import opened Entries

  // The cloud has no server twice, and Aether holds each of its servers that has an id.
  ghost predicate CloudOk(s: State) {
    && (forall i :: 0 <= i < |s.cloud| ==> s.cloud[i] < |s.servers|)
    && (forall i, j :: 0 <= i < j < |s.cloud| ==> s.cloud[i] != s.cloud[j])
    && (forall i :: 0 <= i < |s.cloud| && s.servers[s.cloud[i]].id != 0 ==>
          s.servers[s.cloud[i]].id in s.aether && s.aether[s.servers[s.cloud[i]].id] == s.cloud[i])
  }

  lemma {:induction false} BuildCloud(s: State, id: ServerId, endpoints: ServerEndpoints)
    requires CloudOk(s)
    ensures CloudOk(BuildServer(s, id, endpoints).0)
  {
  }

  lemma {:induction false} StepCloud(h: EndpointsHash, s: State, e: Event)
    requires Inv(h, s) && CloudOk(s)
    ensures CloudOk(Step(h, s, e))
  {
    if e.Replied? || e.LinkChanged? {
      StreamEventFrame(h, s, e);
    } else {
      OwnCloud(h, s, e);
    }
  }

  lemma {:induction false} OwnCloud(h: EndpointsHash, s: State, e: Event)
    requires CloudOk(s) && !e.Replied? && !e.LinkChanged?
    ensures CloudOk(Step(h, s, e))
  {
    match e
    case Packet(_, call, _) => PacketCloud(h, s, e);
    case Updated(g) => UpdateCloud(s, g);
    case Answered(g, servers) =>
      if servers != [] {
        BuildCloud(s, servers[0].serverId, Endpoints(servers[0].ips));
      }
    case _ =>
  }

  lemma {:induction false} PacketCloud(h: EndpointsHash, s: State, e: Event)
    requires CloudOk(s) && e.Packet?
    ensures CloudOk(Step(h, s, e))
  {
    var want := e.call.Wanted();
    var key := MakeKey(h, e.device, e.call.client, want);
    OpenCloud(s, key, want, e.now);
    WriteCloud(OpenStream(s, key, want, e.now), key, Item(want, e.call.data));
  }

  lemma {:induction false} OpenCloud(s: State, key: Key, want: ServeKind, now: TimePoint)
    requires CloudOk(s)
    ensures CloudOk(OpenStream(s, key, want, now))
  {
    if want.ByEndpoints? {
      BuildCloud(s, 0, want.endpoints);
    }
  }

  lemma {:induction false} WriteCloud(s: State, key: Key, item: Item)
    requires CloudOk(s)
    ensures CloudOk(Write(s, key, item))
  {
    WriteFrame(s, key, item);
  }

  lemma {:induction false} UpdateCloud(s: State, g: SessionId)
    ensures var t := UpdateAction(s, g); t.cloud == s.cloud && t.servers == s.servers && t.aether == s.aether
  {
    if g in s.actions {
      match s.actions[g]
      case Existing(st) => ReportCloud(s, g, st);
      case Request(id, state, changed, found) =>
        if found.Some? {
          ReportCloud(s, g, found.value);
        }
    }
  }

  lemma {:induction false} ReportCloud(s: State, g: SessionId, st: StreamRef)
    ensures var t := Report(s, g, st); t.cloud == s.cloud && t.servers == s.servers && t.aether == s.aether
  {
  }

  lemma {:induction false} RunCloud(h: EndpointsHash, s: State, events: seq<Event>)
    requires Inv(h, s) && CloudOk(s)
    ensures CloudOk(Run(h, s, events))
    decreases |events|
  {
    if events != [] {
      StepKeeps(h, s, events[0]);
      StepCloud(h, s, events[0]);
      RunCloud(h, Step(h, s, events[0]), events[1..]);
    }
  }

  /** Over any run the cloud has at most one server per nonzero id: the one Aether holds. */
  lemma {:induction false} OneServerPerId(h: EndpointsHash, events: seq<Event>, i: nat, j: nat)
    requires var s := Run(h, EMPTY, events); i < |s.cloud| && j < |s.cloud|
    ensures var s := Run(h, EMPTY, events);
      && s.cloud[i] < |s.servers| && s.cloud[j] < |s.servers|
      && (var id := s.servers[s.cloud[i]].id;
          id != 0 ==>
            && id in s.aether && s.aether[id] == s.cloud[i]
            && (s.servers[s.cloud[j]].id == id ==> i == j))
  {
    RunCloud(h, EMPTY, events);
  }

  /* ---- Counting ---- */

  datatype Build = Build(id: ServerId, endpoints: ServerEndpoints)

  function BuildAll(s: State, calls: seq<Build>): State
    decreases |calls|
  {
    if calls == [] then s else BuildAll(BuildServer(s, calls[0].id, calls[0].endpoints).0, calls[1..])
  }

  // The nonzero ids among the calls that Aether does not know.
  function NewIds(known: set<ServerId>, calls: seq<Build>): set<ServerId> {
    set i | 0 <= i < |calls| && calls[i].id != 0 && calls[i].id !in known :: calls[i].id
  }

  function Anonymous(calls: seq<Build>): nat {
    if calls == [] then 0 else (if calls[0].id == 0 then 1 else 0) + Anonymous(calls[1..])
  }

  /** The cloud grows by one server for each new nonzero id and one for each call with id 0. */
  lemma {:induction false} CloudGrowth(s: State, calls: seq<Build>)
    ensures var t := BuildAll(s, calls);
      && |t.cloud| == |s.cloud| + |NewIds(s.aether.Keys, calls)| + Anonymous(calls)
      && s.cloud <= t.cloud
      && t.aether.Keys == s.aether.Keys + NewIds(s.aether.Keys, calls)
    decreases |calls|
  {
    if calls == [] {
      assert NewIds(s.aether.Keys, calls) == {};
    } else {
      var s1 := BuildServer(s, calls[0].id, calls[0].endpoints).0;
      CloudGrowth(s1, calls[1..]);
      var now, later := NewIds(s.aether.Keys, calls), NewIds(s1.aether.Keys, calls[1..]);
      NewIdsStep(s, calls);
      BuildGrowth(s, calls[0].id, calls[0].endpoints, now, later);
    }
  }

  lemma {:induction false} BuildGrowth(s: State, id: ServerId, endpoints: ServerEndpoints, now: set<ServerId>,
                                       later: set<ServerId>)
    requires if id != 0 && id !in s.aether then now == {id} + later && id !in later else now == later
    ensures var s1 := BuildServer(s, id, endpoints).0;
      && s1.aether.Keys + later == s.aether.Keys + now
      && s.cloud <= s1.cloud
      && |s1.cloud| + |later| == |s.cloud| + |now| + (if id == 0 then 1 else 0)
  {
    if id != 0 && id !in s.aether {
      BuildNew(s, id, endpoints, later);
    } else {
      BuildOther(s, id, endpoints);
    }
  }

  lemma {:induction false} BuildNew(s: State, id: ServerId, endpoints: ServerEndpoints, later: set<ServerId>)
    requires id != 0 && id !in s.aether && id !in later
    ensures var s1 := BuildServer(s, id, endpoints).0;
      && s1.aether.Keys + later == s.aether.Keys + ({id} + later)
      && s.cloud <= s1.cloud
      && |s1.cloud| + |later| == |s.cloud| + |{id} + later|
  {
    BuildAdds(s, id, endpoints);
    OneMore(s.aether.Keys, id, later);
  }

  lemma {:induction false} BuildAdds(s: State, id: ServerId, endpoints: ServerEndpoints)
    requires id != 0 && id !in s.aether
    ensures var s1 := BuildServer(s, id, endpoints).0;
      s1.aether.Keys == s.aether.Keys + {id} && s.cloud <= s1.cloud && |s1.cloud| == |s.cloud| + 1
  {
  }

  lemma {:induction false} OneMore(keys: set<ServerId>, id: ServerId, later: set<ServerId>)
    requires id !in later
    ensures keys + {id} + later == keys + ({id} + later) && |{id} + later| == |later| + 1
  {
  }

  lemma {:induction false} BuildOther(s: State, id: ServerId, endpoints: ServerEndpoints)
    requires id == 0 || id in s.aether
    ensures var s1 := BuildServer(s, id, endpoints).0;
      && s1.aether.Keys == s.aether.Keys
      && s.cloud <= s1.cloud
      && |s1.cloud| == |s.cloud| + (if id == 0 then 1 else 0)
  {
  }

  lemma {:induction false} NewIdsStep(s: State, calls: seq<Build>)
    requires calls != []
    ensures var id := calls[0].id;
      var s1 := BuildServer(s, id, calls[0].endpoints).0;
      var now, later := NewIds(s.aether.Keys, calls), NewIds(s1.aether.Keys, calls[1..]);
      if id != 0 && id !in s.aether then now == {id} + later && id !in later else now == later
  {
    var id, rest := calls[0].id, calls[1..];
    var s1 := BuildServer(s, id, calls[0].endpoints).0;
    var known := s1.aether.Keys;
    assert known == if id != 0 then s.aether.Keys + {id} else s.aether.Keys;
    assert forall i :: 0 <= i < |rest| ==> rest[i] == calls[i + 1];
    forall x ensures x in NewIds(s.aether.Keys, calls) <==>
                     (x == id && id != 0 && id !in s.aether) || x in NewIds(known, rest)
    {
      if x in NewIds(known, rest) {
        var i :| 0 <= i < |rest| && rest[i].id == x;
        assert calls[i + 1].id == x;
      }
    }
  }
}
