/** The action that builds a channel's transport, changed in place. */
module ChannelObjects {
  import opened Wire
  import Model = Channel
  import opened Channel

  class GwSimTransportBuildAction {
    const server: Server
    var state: BuildState
    var changed: bool
    var joining: bool
    var transportStream: Option<ServeKind>

    constructor (server: Server)
      ensures View() == Fresh(server)
    {
      this.server, state, changed, joining, transportStream := server, Join, true, false, None;
    }

    function View(): Build
      reads this
    {
      Build(server, state, changed, joining, transportStream)
    }

    method SetState(next: BuildState)
      modifies `state, `changed
      ensures state == next && changed
    {
      state, changed := next, true;
    }

    method Update() returns (report: Report)
      modifies this
      ensures (View(), report) == Model.Update(old(View()))
    {
      report := NoReport;
      if changed {
        changed := false;
        match state
        case Join => joining := true;
        case CreateTransport => CreateTransportStream();
        case Built => report := ReportResult;
        case Failed => report := ReportError;
      }
    }

    method CreateTransportStream()
      modifies `transportStream, `state, `changed
      ensures transportStream == Some(KindOf(server)) && state == Built && changed
    {
      if server.id == 0 {
        transportStream := Some(ByEndpoints(server.endpoints));
      } else {
        transportStream := Some(ById(server.id));
      }
      SetState(Built);
    }

    // The handler of the join action.
    method OnJoined(ok: bool)
      requires joining
      modifies this
      ensures View() == Joined(old(View()), ok)
    {
      joining := false;
      SetState(if ok then CreateTransport else Failed);
    }

    method TransportStream() returns (stream: Option<ServeKind>)
      modifies `transportStream
      ensures View() == Taken(old(View())) && stream == old(transportStream)
    {
      stream := transportStream;
      transportStream := None;
    }

    method Handle(e: BuildEvent) returns (report: Report)
      modifies this
      ensures View() == BuildStep(old(View()), e)
      ensures report == if e.Updated? then Model.Update(old(View())).1 else NoReport
    {
      report := NoReport;
      match e
      case Updated => report := Update();
      case JoinAnswered(ok) =>
        if joining {
          OnJoined(ok);
        }
      case TransportTaken => var _ := TransportStream();
    }

    /** Handling a list of events is a run of the build, and the reports are the run's. */
    method HandleAll(events: seq<BuildEvent>) returns (reports: seq<Report>)
      modifies this
      ensures View() == BuildRun(old(View()), events)
      ensures reports == Reports(old(View()), events)
    {
      reports := [];
      for i := 0 to |events|
        invariant BuildRun(View(), events[i..]) == BuildRun(old(View()), events)
        invariant reports + Reports(View(), events[i..]) == Reports(old(View()), events)
      {
        assert events[i..][1..] == events[i + 1..];
        var report := Handle(events[i]);
        if report != NoReport {
          reports := reports + [report];
        }
      }
    }
  }
}
