/** How a simulated channel builds its transport to a server. */
module Channel {
  import opened Wire
  import opened GatewayModel
  import opened RightServer
  import opened SystemModel
  import opened EndToEnd
  import opened Uplink

  datatype BuildState = Join | CreateTransport | Built | Failed
  datatype Report = NoReport | ReportResult | ReportError

  // `joining` says that the access point has been asked to join and has not answered.
  datatype Build = Build(server: Server, state: BuildState, changed: bool, joining: bool, transport: Option<ServeKind>)

  function Fresh(server: Server): Build {
    Build(server, Join, true, false, None)
  }

  // A transport names its server by id if the server has one, and by endpoints if not.
  function KindOf(server: Server): ServeKind {
    if server.id == 0 then ByEndpoints(server.endpoints) else ById(server.id)
  }

  function Update(b: Build): (Build, Report) {
    if !b.changed then (b, NoReport)
    else
      match b.state
      case Join => (b.(changed := false, joining := true), NoReport)
      case CreateTransport => (b.(state := Built, transport := Some(KindOf(b.server))), NoReport)
      case Built => (b.(changed := false), ReportResult)
      case Failed => (b.(changed := false), ReportError)
  }

  function Joined(b: Build, ok: bool): Build {
    if b.joining then b.(state := if ok then CreateTransport else Failed, changed := true, joining := false) else b
  }

  // The transport is moved out of the action.
  function Taken(b: Build): Build {
    b.(transport := None)
  }

  datatype BuildEvent = Updated | JoinAnswered(ok: bool) | TransportTaken

  function BuildStep(b: Build, e: BuildEvent): Build {
    match e
    case Updated => Update(b).0
    case JoinAnswered(ok) => Joined(b, ok)
    case TransportTaken => Taken(b)
  }

  function BuildRun(b: Build, events: seq<BuildEvent>): Build
    decreases |events|
  {
    if events == [] then b else BuildRun(BuildStep(b, events[0]), events[1..])
  }

  // What the action reports over a run.
  function Reports(b: Build, events: seq<BuildEvent>): seq<Report>
    decreases |events|
  {
    if events == [] then []
    else
      (if events[0].Updated? && Update(b).1 != NoReport then [Update(b).1] else [])
        + Reports(BuildStep(b, events[0]), events[1..])
  }

  // The answer the access point gives to the one question it is asked.
  function FirstAnswer(b: Build, events: seq<BuildEvent>): Option<bool>
    decreases |events|
  {
    if events == [] then None
    else if events[0].JoinAnswered? && b.joining then Some(events[0].ok)
    else FirstAnswer(BuildStep(b, events[0]), events[1..])
  }

  /** How many state changes are still to come at most. */
  function Rank(b: Build): nat {
    match b.state
    case Join => if b.changed then 4 else if b.joining then 3 else 0
    case CreateTransport => if b.changed then 2 else 0
    case _ => if b.changed then 1 else 0
  }

  ghost predicate BuildOk(b: Build) {
    && (b.joining ==> b.state == Join && !b.changed)
    && (b.state == CreateTransport ==> b.changed)
    && (b.state == Join && !b.changed ==> b.joining)
  }

  predicate AtMostOne(reports: seq<Report>, report: Report) {
    reports == [] || reports == [report]
  }

  // Once the join has been answered, the outcome is settled.
  lemma {:induction false} Settled(b: Build, events: seq<BuildEvent>)
    requires BuildOk(b) && b.state != Join
    ensures if b.changed then AtMostOne(Reports(b, events), if b.state == Failed then ReportError else ReportResult)
            else Reports(b, events) == []
    ensures FirstAnswer(b, events) == None
    decreases |events|
  {
    if events != [] {
      var t := BuildStep(b, events[0]);
      Settled(t, events[1..]);
      assert [] + Reports(t, events[1..]) == Reports(t, events[1..]);
    }
  }

  lemma {:induction false} OutcomeIn(b: Build, events: seq<BuildEvent>)
    requires BuildOk(b) && b.state == Join
    ensures match FirstAnswer(b, events)
            case None => Reports(b, events) == []
            case Some(ok) => AtMostOne(Reports(b, events), if ok then ReportResult else ReportError)
    decreases |events|
  {
    if events != [] {
      var t := BuildStep(b, events[0]);
      assert [] + Reports(t, events[1..]) == Reports(t, events[1..]);
      if t.state == Join {
        OutcomeIn(t, events[1..]);
      } else {
        Settled(t, events[1..]);
      }
    }
  }

  /**
   Over any run a build reports at most once: a result only after the access
   point joined, an error only after it refused, and nothing before it answers.
   */
  lemma {:induction false} OneOutcome(server: Server, events: seq<BuildEvent>)
    ensures match FirstAnswer(Fresh(server), events)
            case None => Reports(Fresh(server), events) == []
            case Some(ok) => AtMostOne(Reports(Fresh(server), events), if ok then ReportResult else ReportError)
  {
    OutcomeIn(Fresh(server), events);
  }

  // The transport is there from the moment it is created until it is taken.
  ghost predicate TransportOk(server: Server, b: Build) {
    && b.server == server && BuildOk(b)
    && (b.transport.Some? ==> b.state == Built && b.transport.value == KindOf(server))
    && (b.state == Failed ==> b.transport == None)
  }

  lemma {:induction false} TransportKept(server: Server, b: Build, events: seq<BuildEvent>)
    requires TransportOk(server, b)
    requires b.state == Built ==> b.transport.Some?
    requires TransportTaken !in events
    ensures TransportOk(server, BuildRun(b, events))
    ensures BuildRun(b, events).state == Built ==> BuildRun(b, events).transport.Some?
    decreases |events|
  {
    if events != [] {
      TransportKept(server, BuildStep(b, events[0]), events[1..]);
    }
  }

  /** When a result is reported the transport is there, and it names the server of the channel. */
  lemma {:induction false} ResultHasTransport(server: Server, before: seq<BuildEvent>)
    requires TransportTaken !in before
    requires Update(BuildRun(Fresh(server), before)).1 == ReportResult
    ensures BuildRun(Fresh(server), before).transport == Some(KindOf(server))
    ensures Names(KindOf(server), server)
  {
    TransportKept(server, Fresh(server), before);
  }

  /** Each event that changes the state of a build brings it nearer to its end, and there are four at most. */
  lemma {:induction false} RankDecreases(server: Server, before: seq<BuildEvent>, e: BuildEvent)
    ensures var b := BuildRun(Fresh(server), before); var t := BuildStep(b, e);
      && Rank(b) <= 4
      && (if t.(transport := b.transport) == b then Rank(t) == Rank(b) else Rank(t) < Rank(b))
  {
    BuildRunOk(Fresh(server), before);
  }

  lemma {:induction false} BuildRunOk(b: Build, events: seq<BuildEvent>)
    requires BuildOk(b)
    ensures BuildOk(BuildRun(b, events))
    decreases |events|
  {
    if events != [] {
      BuildRunOk(BuildStep(b, events[0]), events[1..]);
    }
  }

  /* ---- A build comes to its end ---- */

  // What follows the first update, with which the access point is asked to join.
  function Asked(events: seq<BuildEvent>): Option<seq<BuildEvent>> {
    if events == [] then None
    else if events[0].Updated? then Some(events[1..])
    else Asked(events[1..])
  }

  // The first answer, and what follows it.
  function AnswerIn(events: seq<BuildEvent>): Option<(bool, seq<BuildEvent>)> {
    if events == [] then None
    else if events[0].JoinAnswered? then Some((events[0].ok, events[1..]))
    else AnswerIn(events[1..])
  }

  // The answer to the asking, and what follows it.
  function Answered(events: seq<BuildEvent>): Option<(bool, seq<BuildEvent>)> {
    match Asked(events)
    case None => None
    case Some(rest) => AnswerIn(rest)
  }

  function Updates(events: seq<BuildEvent>): nat {
    if events == [] then 0 else (if events[0].Updated? then 1 else 0) + Updates(events[1..])
  }

  // What follows the first update.
  function AfterUpdate(events: seq<BuildEvent>): seq<BuildEvent> {
    if events == [] then [] else if events[0].Updated? then events[1..] else AfterUpdate(events[1..])
  }

  /** What is to be reported once the access point has answered, told from the events that follow. */
  function Due(answer: Option<(bool, seq<BuildEvent>)>): seq<Report> {
    match answer
    case None => []
    case Some((ok, rest)) =>
      if ok && Updates(rest) >= 2 then [ReportResult]
      else if !ok && Updates(rest) >= 1 then [ReportError]
      else []
  }

  /** The transport comes with the update after a success and goes when it is taken. */
  function TransportDue(server: Server, answer: Option<(bool, seq<BuildEvent>)>): Option<ServeKind> {
    match answer
    case None => None
    case Some((ok, rest)) =>
      if ok && Updates(rest) >= 1 && TransportTaken !in AfterUpdate(rest)
      then Some(if server.id == 0 then ByEndpoints(server.endpoints) else ById(server.id))
      else None
  }

  // No transport appears once the build is over or has failed.
  lemma {:induction false} Ended(b: Build, events: seq<BuildEvent>)
    requires !b.changed && !b.joining
    ensures Reports(b, events) == []
    ensures BuildRun(b, events).transport == if TransportTaken in events then None else b.transport
    decreases |events|
  {
    if events != [] {
      var t := BuildStep(b, events[0]);
      Ended(t, events[1..]);
      assert TransportTaken in events <==> events[0] == TransportTaken || TransportTaken in events[1..];
    }
  }

  lemma {:induction false} HasBuilt(b: Build, events: seq<BuildEvent>)
    requires b.state == Built && b.changed && !b.joining
    ensures Reports(b, events) == if Updates(events) >= 1 then [ReportResult] else []
    ensures BuildRun(b, events).transport == if TransportTaken in events then None else b.transport
    decreases |events|
  {
    if events != [] {
      var t := BuildStep(b, events[0]);
      assert TransportTaken in events <==> events[0] == TransportTaken || TransportTaken in events[1..];
      if events[0].Updated? {
        Ended(t, events[1..]);
        assert [ReportResult] + [] == [ReportResult];
      } else {
        HasBuilt(t, events[1..]);
      }
    }
  }

  lemma {:induction false} HasFailed(b: Build, events: seq<BuildEvent>)
    requires b.state == Failed && b.changed && !b.joining && b.transport == None
    ensures Reports(b, events) == if Updates(events) >= 1 then [ReportError] else []
    ensures BuildRun(b, events).transport == None
    decreases |events|
  {
    if events != [] {
      var t := BuildStep(b, events[0]);
      if events[0].Updated? {
        Ended(t, events[1..]);
        assert [ReportError] + [] == [ReportError];
      } else {
        HasFailed(t, events[1..]);
      }
    }
  }

  lemma {:induction false} HasJoined(b: Build, events: seq<BuildEvent>)
    requires b.state == CreateTransport && b.changed && !b.joining && b.transport == None
    ensures Reports(b, events) == if Updates(events) >= 2 then [ReportResult] else []
    ensures BuildRun(b, events).transport ==
            if Updates(events) >= 1 && TransportTaken !in AfterUpdate(events)
            then Some(if b.server.id == 0 then ByEndpoints(b.server.endpoints) else ById(b.server.id))
            else None
    decreases |events|
  {
    if events != [] {
      var t := BuildStep(b, events[0]);
      if events[0].Updated? {
        HasBuilt(t, events[1..]);
      } else {
        HasJoined(t, events[1..]);
      }
    }
  }

  lemma {:induction false} IsJoining(b: Build, events: seq<BuildEvent>)
    requires b.state == Join && b.joining && !b.changed && b.transport == None
    ensures Reports(b, events) == Due(AnswerIn(events))
    ensures BuildRun(b, events).transport == TransportDue(b.server, AnswerIn(events))
    decreases |events|
  {
    if events != [] {
      var t := BuildStep(b, events[0]);
      if !events[0].JoinAnswered? {
        IsJoining(t, events[1..]);
      } else if events[0].ok {
        HasJoined(t, events[1..]);
      } else {
        HasFailed(t, events[1..]);
      }
    }
  }

  lemma {:induction false} ComesToItsEnd(b: Build, events: seq<BuildEvent>)
    requires b.state == Join && b.changed && !b.joining && b.transport == None
    ensures Reports(b, events) == Due(Answered(events))
    ensures BuildRun(b, events).transport == TransportDue(b.server, Answered(events))
    decreases |events|
  {
    if events != [] {
      var t := BuildStep(b, events[0]);
      if events[0].Updated? {
        IsJoining(t, events[1..]);
      } else {
        ComesToItsEnd(t, events[1..]);
      }
    }
  }

  /**
   Over any run, told from the events alone: a build reports a result with the
   second update after the access point joined, an error with the first one after
   it refused, and nothing else; the transport names the server by its id, or by
   its endpoints if it has none, from the first update after the joining until it
   is taken.
   */
  lemma {:induction false} ReportsWhenDue(server: Server, events: seq<BuildEvent>)
    ensures Reports(Fresh(server), events) == Due(Answered(events))
    ensures BuildRun(Fresh(server), events).transport == TransportDue(server, Answered(events))
  {
    ComesToItsEnd(Fresh(server), events);
  }

  /** A device sends only what goes through a transport to this server or these endpoints. */
  ghost predicate SendsThrough<D, P>(events: seq<SystemEvent<D, P>>, device: D, transport: Option<ServeKind>) {
    forall k :: 0 <= k < |events| && events[k].DeviceSends? && events[k].device == device ==>
      transport == Some(events[k].call.Wanted())
  }

  /**
   Channel, device, bus and gateway agree: if a device sends only through the
   transport that a channel's build has reported, then over any run of the system
   every item that a session of this device passed on reached a stream to a server
   with the id of the channel's server, and, if it has no id, with its endpoints.
   */
  lemma {:induction false} ThroughTheChannel<D, P>(h: EndpointsHash, events: seq<SystemEvent<D, P>>, device: D,
                                                server: Server,
                                                   build: seq<BuildEvent>, st: StreamRef, i: nat)
    requires TransportTaken !in build && Update(BuildRun(Fresh(server), build)).1 == ReportResult
    requires SendsThrough(events, device, BuildRun(Fresh(server), build).transport)
    requires IdentitiesDiffer(h, GatewayEvents<D, P>(h, Start(), events))
    requires AnswersMatch(h, EMPTY, GatewayEvents<D, P>(h, Start(), events))
    requires var y := SystemRun<D, P>(h, Start(), events); var s := y.gateway;
      && st < |s.streams| && i < |s.streams[st].received|
      && s.streams[st].received[i].session < |y.senders|
      && y.senders[s.streams[st].received[i].session] == device
    ensures var s := SystemRun<D, P>(h, Start(), events).gateway;
      && s.streams[st].server < |s.servers|
      && ServerOf(s, st).id == server.id
      && (server.id == 0 ==> ServerOf(s, st) == server)
  {
    ResultHasTransport(server, build);
    var k := ReceivedWasSent(h, events, st, i);
    GatewayRuns<D, P>(h, Start(), events);
    ReachesTheRightServer(h, GatewayEvents<D, P>(h, Start(), events), st, i);
  }
}
