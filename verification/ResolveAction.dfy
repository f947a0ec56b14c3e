/** The life of one get-action, over a whole run. */
module ResolveAction {
  import opened Wire
  import opened Flatten
  import opened GatewayModel
  import opened GatewayInvariant
  import opened GatewaySteps
  import opened FanOut
  import opened Entries

  // What an action reports when it is updated.
  function ReportOf(s: State, g: SessionId): seq<ResolveState> {
    if g !in s.actions then []
    else
      match s.actions[g]
      case Existing(_) => [Result]
      case Request(_, state, changed, _) => if changed && state in {Result, Error} then [state] else []
  }

  /** All that the action of session g reports in a run. */
  ghost function Reports(h: EndpointsHash, events: seq<Event>, g: SessionId): seq<ResolveState>
    decreases |events|
  {
    if events == [] then []
    else
      var before, e := events[..|events| - 1], events[|events| - 1];
      Reports(h, before, g) + if e == Updated(g) then ReportOf(Run(h, EMPTY, before), g) else []
  }

  // What an event adds to the log of CacheStream calls.
  function NewCalls(s: State, t: State): seq<CacheCall> {
    if |s.cacheCalls| <= |t.cacheCalls| then t.cacheCalls[|s.cacheCalls|..] else []
  }

  /** The calls of CacheStream that the action of session g makes in a run. */
  ghost function CallsOf(h: EndpointsHash, events: seq<Event>, g: SessionId): seq<CacheCall>
    decreases |events|
  {
    if events == [] then []
    else
      var before, e := events[..|events| - 1], events[|events| - 1];
      CallsOf(h, before, g) + if IsAbout(e, g) then NewCalls(Run(h, EMPTY, before), Run(h, EMPTY, events)) else []
  }

  // Steps an action still has to take before it is destroyed.
  function Rank(s: State, g: SessionId): nat {
    if g !in s.actions then 0
    else
      match s.actions[g]
      case Existing(_) => 1
      case Request(_, state, changed, _) =>
        match state
        case CheckServerExists => 4
        case RequestServer => if changed then 3 else 2
        case _ => 1
  }

  predicate IsAbout(e: Event, g: SessionId) {
    (e.Updated? || e.Answered? || e.Refused?) && e.session == g
  }

  // A session that has lost its action never gets another.
  lemma {:induction false} GoneStays(h: EndpointsHash, s: State, e: Event, g: SessionId)
    requires Inv(h, s) && g !in s.actions && g < |s.sessions|
    ensures var t := Step(h, s, e); g !in t.actions && g < |t.sessions|
  {
    if e.Replied? || e.LinkChanged? {
      StreamEventFrame(h, s, e);
    } else {
      GoneStaysQuietly(h, s, e, g);
    }
  }

  lemma {:induction false} GoneStaysQuietly(h: EndpointsHash, s: State, e: Event, g: SessionId)
    requires g !in s.actions && g < |s.sessions| && !e.Replied? && !e.LinkChanged?
    ensures var t := Step(h, s, e); g !in t.actions && g < |t.sessions|
  {
    match e
    case Packet(_, _, _) => PacketFrame(h, s, e);
    case Updated(x) =>
      UpdateFrame(s, x);
      UpdateUntouched(s, x);
    case Answered(x, servers) =>
      AnswerFrame(s, x, servers);
      AnswerUntouched(s, x, servers);
    case Drained(key) => DrainUntouched(s, key);
    case StreamUpdated(key) => EraseUntouched(s, key);
    case _ =>
  }

  // The action's own events move it forward by one state.
  lemma {:induction false} OwnStep(h: EndpointsHash, s: State, e: Event, g: SessionId)
    requires g in s.actions && IsAbout(e, g)
    requires s.actions[g].Request? && s.actions[g].state == Result ==> s.actions[g].found.Some?
    ensures var t := Step(h, s, e);
      && |t.sessions| == |s.sessions|
      && (g in t.actions <==> !(e.Updated? && ReportOf(s, g) != []))
      && (g in t.actions ==> t.actions[g].Request? == s.actions[g].Request?)
      && (g in t.actions && t.actions[g] != s.actions[g] ==> Rank(t, g) < Rank(s, g))
      && (g in t.actions && s.actions[g].Request? && !s.actions[g].Unresolved() ==> t.actions[g] == s.actions[g])
  {
    match e
    case Updated(_) => UpdateUntouched(s, g);
    case Answered(_, servers) => AnswerUntouched(s, g, servers);
    case Refused(_) =>
  }

  /**
   In every reachable state, every change to an action brings it nearer to its
   end: it can change at most four times.
   */
  lemma {:induction false} RankDecreases(h: EndpointsHash, events: seq<Event>, e: Event, g: SessionId)
    requires g in Run(h, EMPTY, events).actions
    ensures var s := Run(h, EMPTY, events); var t := Run(h, EMPTY, events + [e]);
      && Rank(s, g) <= 4
      && (if g in t.actions && t.actions[g] == s.actions[g] then Rank(t, g) == Rank(s, g) else Rank(t, g) < Rank(s, g))
  {
    Reachable(h, events);
    RunBoth(h, EMPTY, events, [e]);
    RunOne(h, Run(h, EMPTY, events), e);
    RankDecreasesIn(h, Run(h, EMPTY, events), e, g);
  }

  lemma {:induction false} RankDecreasesIn(h: EndpointsHash, s: State, e: Event, g: SessionId)
    requires Inv(h, s) && g in s.actions
    ensures var t := Step(h, s, e);
      && Rank(s, g) <= 4
      && (if g in t.actions && t.actions[g] == s.actions[g] then Rank(t, g) == Rank(s, g) else Rank(t, g) < Rank(s, g))
  {
    assert g < |s.sessions| && ActionOk(s.actions[g], s.sessions[g], |s.streams|);
    if IsAbout(e, g) {
      OwnStep(h, s, e, g);
    } else {
      OtherActions(h, s, e, g);
    }
  }

  // The call an action has made, from the state it is in.
  function CallOf(action: GetAction): seq<CacheCall> {
    if action.Request? && action.state == Result && action.found.Some? then [CacheCall(action.id, action.found.value)]
    else []
  }

  // What the past of an action must have been, from what it is now.
  ghost predicate Disciplined(s: State, g: SessionId, reports: seq<ResolveState>, calls: seq<CacheCall>) {
    if g >= |s.sessions| then reports == [] && calls == []
    else if g in s.actions then reports == [] && calls == CallOf(s.actions[g])
    else (reports == [Result] && |calls| <= 1) || (reports == [Error] && calls == [])
  }

  lemma {:induction false} StaysDisciplined(h: EndpointsHash, s: State, e: Event, g: SessionId,
                                            reports: seq<ResolveState>, calls: seq<CacheCall>)
    requires Inv(h, s) && Disciplined(s, g, reports, calls)
    ensures var t := Step(h, s, e);
      Disciplined(t, g, reports + (if e == Updated(g) then ReportOf(s, g) else []),
                  calls + if IsAbout(e, g) then NewCalls(s, t) else [])
  {
    assert reports + [] == reports && calls + [] == calls;
    if g >= |s.sessions| {
      FreshStays(h, s, e, g);
    } else if g in s.actions {
      assert ActionOk(s.actions[g], s.sessions[g], |s.streams|);
      if IsAbout(e, g) {
        OwnDisciplined(h, s, e, g, calls);
      } else {
        OtherActions(h, s, e, g);
        SessionsGrow(h, s, e);
      }
    } else {
      GoneStays(h, s, e, g);
      if IsAbout(e, g) {
        GoneCalls(h, s, e, g);
      }
    }
  }

  lemma {:induction false} OwnDisciplined(h: EndpointsHash, s: State, e: Event, g: SessionId, calls: seq<CacheCall>)
    requires g in s.actions && g < |s.sessions| && IsAbout(e, g)
    requires ActionOk(s.actions[g], s.sessions[g], |s.streams|) && Disciplined(s, g, [], calls)
    ensures var t := Step(h, s, e);
      Disciplined(t, g, if e == Updated(g) then ReportOf(s, g) else [], calls + NewCalls(s, t))
  {
    OwnStep(h, s, e, g);
    OwnCalls(h, s, e, g);
    assert calls + [] == calls;
  }

  // An action that comes to its result calls CacheStream with its own id and the stream it found; else nothing does.
  lemma {:induction false} OwnCalls(h: EndpointsHash, s: State, e: Event, g: SessionId)
    requires g in s.actions && IsAbout(e, g)
    ensures var t := Step(h, s, e);
      && NewCalls(s, t) == (if s.actions[g].Unresolved() && g in t.actions then CallOf(t.actions[g]) else [])
      && (g in t.actions && !s.actions[g].Unresolved() ==> CallOf(t.actions[g]) == CallOf(s.actions[g]))
  {
    if s.actions[g].Request? {
      ResolveCalls(s, g, s.actions[g].id);
    }
  }

  lemma {:induction false} ResolveCalls(s: State, g: SessionId, id: ServerId)
    ensures forall server :: NewCalls(s, Resolve(s, g, id, server)) == [CacheCall(id, |s.streams|)]
  {
  }

  lemma {:induction false} GoneCalls(h: EndpointsHash, s: State, e: Event, g: SessionId)
    requires g !in s.actions && IsAbout(e, g)
    ensures NewCalls(s, Step(h, s, e)) == []
  {
  }

  lemma {:induction false} FreshStays(h: EndpointsHash, s: State, e: Event, g: SessionId)
    requires Inv(h, s) && g >= |s.sessions|
    ensures var t := Step(h, s, e);
      Disciplined(t, g, if e == Updated(g) then ReportOf(s, g) else [], if IsAbout(e, g) then NewCalls(s, t) else [])
  {
    assert g !in s.actions;
    FreshAction(h, s, e, g);
    if IsAbout(e, g) {
      GoneCalls(h, s, e, g);
    }
  }

  /** No event but an action's own makes a call of CacheStream. */
  lemma {:induction false} OnlyActionsStore(h: EndpointsHash, s: State, e: Event)
    requires Inv(h, s) && !e.Updated? && !e.Answered?
    ensures Step(h, s, e).cacheCalls == s.cacheCalls
  {
    if e.Replied? || e.LinkChanged? {
      StreamEventFrame(h, s, e);
    } else if e.Packet? {
      PacketCalls(h, s, e);
    }
  }

  lemma {:induction false} PacketCalls(h: EndpointsHash, s: State, e: Event)
    requires e.Packet?
    ensures Step(h, s, e).cacheCalls == s.cacheCalls
  {
    GetStreamFrame(s, e.call.Wanted());
  }

  lemma {:induction false} SessionsGrow(h: EndpointsHash, s: State, e: Event)
    requires Inv(h, s)
    ensures |s.sessions| <= |Step(h, s, e).sessions|
  {
    if e.Packet? {
      GetStreamFrame(s, e.call.Wanted());
    } else if e.Replied? {
      StreamEventFrame(h, s, e);
    } else {
      QuietUntouched(h, s, e);
    }
  }

  // A session that does not exist yet gets its action with the event that opens it.
  lemma {:induction false} FreshAction(h: EndpointsHash, s: State, e: Event, g: SessionId)
    requires Inv(h, s) && g >= |s.sessions|
    ensures var t := Step(h, s, e);
      && (g < |t.sessions| ==>
            g in t.actions && (t.actions[g].Request? ==> t.actions[g].state == CheckServerExists))
      && ReportOf(s, g) == []
  {
    assert g !in s.actions;
    if e.Packet? {
      NewSessionAction(h, s, e);
    } else if e.Replied? {
      StreamEventFrame(h, s, e);
    } else {
      QuietUntouched(h, s, e);
    }
  }

  lemma {:induction false} NewSessionAction(h: EndpointsHash, s: State, e: Event)
    requires e.Packet?
    ensures var t := Step(h, s, e);
      && |t.sessions| <= |s.sessions| + 1
      && (|t.sessions| > |s.sessions| ==> |s.sessions| in t.actions)
      && (|t.sessions| > |s.sessions| && t.actions[|s.sessions|].Request? ==>
            t.actions[|s.sessions|].state == CheckServerExists)
  {
    GetStreamFrame(s, e.call.Wanted());
  }

  lemma {:induction false} RunDisciplined(h: EndpointsHash, events: seq<Event>, g: SessionId)
    ensures Disciplined(Run(h, EMPTY, events), g, Reports(h, events, g), CallsOf(h, events, g))
    decreases |events|
  {
    if events != [] {
      var before, e := events[..|events| - 1], events[|events| - 1];
      RunDisciplined(h, before, g);
      RunLast(h, EMPTY, events);
      Reachable(h, before);
      StaysDisciplined(h, Run(h, EMPTY, before), e, g, Reports(h, before, g), CallsOf(h, before, g));
    }
  }

  /**
   Over any run a get-action reports at most once, a result or an error but never
   both; it calls CacheStream at most once, and never if it fails.
   */
  lemma {:induction false} OneOutcome(h: EndpointsHash, events: seq<Event>, g: SessionId)
    ensures Reports(h, events, g) in {[], [Result], [Error]}
    ensures |CallsOf(h, events, g)| <= 1
    ensures Reports(h, events, g) == [Error] ==> CallsOf(h, events, g) == []
  {
    RunDisciplined(h, events, g);
  }

  /**
   When an action reports, it has not reported before. A request that reports a
   result has called CacheStream exactly once, with its own id and the very stream
   it reports; one that reports an error has not called it, and no more has an
   action that had its stream from the beginning.
   */
  lemma {:induction false} AtReport(h: EndpointsHash, before: seq<Event>, g: SessionId)
    requires ReportOf(Run(h, EMPTY, before), g) != []
    ensures var s := Run(h, EMPTY, before); var report := ReportOf(s, g); var all := before + [Updated(g)];
      && Reports(h, before, g) == []
      && Reports(h, all, g) == report
      && (report == [Result] ==> s.actions[g].Held().Some? && s.actions[g].Held().value < |s.streams|)
      && CallsOf(h, all, g) ==
         if report == [Result] && s.actions[g].Request? then [CacheCall(s.actions[g].id, s.actions[g].Held().value)]
         else []
  {
    var s := Run(h, EMPTY, before);
    RunDisciplined(h, before, g);
    ActionIsOk(h, before, g);
    ReportsLast(h, before, Updated(g), g);
    ReportCalls(h, s, g, CallsOf(h, before, g));
  }

  lemma {:induction false} ReportsLast(h: EndpointsHash, before: seq<Event>, e: Event, g: SessionId)
    ensures var s := Run(h, EMPTY, before); var all := before + [e];
      && Run(h, EMPTY, all) == Step(h, s, e)
      && Reports(h, all, g) == (if e == Updated(g) then Reports(h, before, g) + ReportOf(s, g) else Reports(h, before, g))
      && CallsOf(h, all, g) ==
         (if IsAbout(e, g) then CallsOf(h, before, g) + NewCalls(s, Step(h, s, e)) else CallsOf(h, before, g))
  {
    var all := before + [e];
    assert all != [] && all[..|all| - 1] == before && all[|all| - 1] == e;
    RunLast(h, EMPTY, all);
  }

  lemma {:induction false} ActionIsOk(h: EndpointsHash, events: seq<Event>, g: SessionId)
    requires g in Run(h, EMPTY, events).actions
    ensures var s := Run(h, EMPTY, events); g < |s.sessions| && ActionOk(s.actions[g], s.sessions[g], |s.streams|)
  {
    Reachable(h, events);
  }

  lemma {:induction false} ReportCalls(h: EndpointsHash, s: State, g: SessionId, calls: seq<CacheCall>)
    requires g in s.actions && g < |s.sessions| && ReportOf(s, g) != []
    requires ActionOk(s.actions[g], s.sessions[g], |s.streams|) && calls == CallOf(s.actions[g])
    ensures calls + NewCalls(s, Step(h, s, Updated(g))) ==
            if ReportOf(s, g) == [Result] && s.actions[g].Request?
            then [CacheCall(s.actions[g].id, s.actions[g].Held().value)]
            else []
  {
    OwnCalls(h, s, Updated(g), g);
    assert calls + [] == calls;
  }

  /** The calls the actions make are all there are: the log of a run is made up of them. */
  lemma {:induction false} CallsAreOfActions(h: EndpointsHash, events: seq<Event>, i: nat) returns (g: SessionId)
    requires i < |Run(h, EMPTY, events).cacheCalls|
    ensures CallsOf(h, events, g) == [Run(h, EMPTY, events).cacheCalls[i]]
    decreases |events|
  {
    var before, e := events[..|events| - 1], events[|events| - 1];
    var s, t := Run(h, EMPTY, before), Run(h, EMPTY, events);
    RunLast(h, EMPTY, events);
    Reachable(h, before);
    StepCalls(h, s, e);
    if i < |s.cacheCalls| {
      g := CallsAreOfActions(h, before, i);
      assert s.cacheCalls[i] in CallsOf(h, before, g);
    } else {
      g := e.session;
      assert t.cacheCalls[i] == NewCalls(s, t)[i - |s.cacheCalls|];
    }
    OneOutcome(h, events, g);
    OnlyOne(CallsOf(h, before, g), if IsAbout(e, g) then NewCalls(s, t) else [], t.cacheCalls[i]);
  }

  lemma {:induction false} OnlyOne(first: seq<CacheCall>, second: seq<CacheCall>, call: CacheCall)
    requires |first + second| <= 1 && (call in first || call in second)
    ensures first + second == [call]
  {
  }

  lemma {:induction false} StepCalls(h: EndpointsHash, s: State, e: Event)
    requires Inv(h, s)
    ensures var t := Step(h, s, e);
      || t.cacheCalls == s.cacheCalls
      || ((e.Updated? || e.Answered?) && t.cacheCalls == s.cacheCalls + NewCalls(s, t))
  {
    if e.Updated? || e.Answered? {
      ActionCalls(h, s, e);
    } else {
      OnlyActionsStore(h, s, e);
    }
  }

  lemma {:induction false} ActionCalls(h: EndpointsHash, s: State, e: Event)
    requires e.Updated? || e.Answered?
    ensures var t := Step(h, s, e); t.cacheCalls == s.cacheCalls + NewCalls(s, t)
  {
    var g := e.session;
    if g in s.actions && s.actions[g].Request? {
      ResolveCalls(s, g, s.actions[g].id);
    }
  }
}
