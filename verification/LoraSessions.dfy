/** AT sessions over any run of the LR02 driver. */
module LoraSessions {
  import opened Wire
  import opened LoraModel

  function Toggles(trace: seq<Command>): nat {
    if trace == [] then 0
    else Toggles(trace[..|trace| - 1]) + if trace[|trace| - 1].Toggle? then 1 else 0
  }

  // Every command but the toggle itself comes between an entry and an exit.
  ghost predicate InSession(trace: seq<Command>) {
    forall i :: 0 <= i < |trace| && !trace[i].Toggle? ==> Toggles(trace[..i]) % 2 == 1
  }

  // Requests in a pipeline come after its entry and before its exit.
  predicate Bracketed(stages: seq<Stage>, atMode: bool) {
    if stages == [] then true
    else
      match stages[0]
      case EnterAtMode => Bracketed(stages[1..], true)
      case ExitAtMode => Bracketed(stages[1..], false)
      case Request(command) => !command.Toggle? && atMode && Bracketed(stages[1..], atMode)
      case _ => Bracketed(stages[1..], atMode)
  }

  // A job that is waited for comes after the one that waits for it.
  ghost predicate RunningOk(d: Driver, r: Running) {
    && |d.outcomes| < |d.jobs|
    && Bracketed(r.rest, d.atMode)
    && (r.wait.ForJob? ==> r.wait.job > |d.outcomes|)
  }

  ghost predicate DriverOk(d: Driver) {
    && |d.outcomes| <= |d.jobs|
    && (d.running.Some? ==> RunningOk(d, d.running.value))
    && TraceOk(d.trace, d.atMode)
    && |d.trace| == |d.answers| + (if Asking(d) then 1 else 0)
  }

  lemma {:induction false} BodyBracketed(op: Operation)
    ensures Bracketed(Body(op) + [ExitAtMode] + (if op.Start? then [SetStarted] else []), true)
  {
    match op
    case SetPowerSaveParam(psp) =>
      var all := Body(op) + [ExitAtMode];
      assert all[6..] == [ExitAtMode] && [ExitAtMode][1..] == [];
      assert all[5..][1..] == all[6..] && all[4..][1..] == all[5..] && all[3..][1..] == all[4..];
      assert all[2..][1..] == all[3..] && all[1..][1..] == all[2..];
      assert Bracketed(all[6..], true) && Bracketed(all[5..], true) && Bracketed(all[4..], true);
      assert Bracketed(all[3..], true) && Bracketed(all[2..], true) && Bracketed(all[1..], true);
      assert all + [] == all;
    case Start =>
      assert [ExitAtMode, SetStarted][1..] == [SetStarted] && [SetStarted][1..] == [];
    case _ =>
      var all := Body(op) + [ExitAtMode];
      assert all[1..] == [ExitAtMode] && [ExitAtMode][1..] == [];
      assert all + [] == all;
  }

  lemma {:induction false} NoRequestsBracketed(stages: seq<Stage>, atMode: bool)
    requires forall i :: 0 <= i < |stages| ==> !stages[i].Request?
    ensures Bracketed(stages, atMode)
  {
    if stages != [] {
      NoRequestsBracketed(stages[1..], if stages[0].EnterAtMode? then true else if stages[0].ExitAtMode? then false else atMode);
    }
  }

  lemma {:induction false} StagesBracketed(job: Job, started: bool, atMode: bool)
    ensures Bracketed(StagesOf(job, started), atMode)
  {
    match job
    case Public(op) =>
      if op.Start? && started {
        NoRequestsBracketed([NotifyNow], atMode);
      } else {
        BodyBracketed(op);
        assert StagesOf(job, started)[1..] == Body(op) + [ExitAtMode] + (if op.Start? then [SetStarted] else []);
      }
    case Init(x) =>
      var all := InitStages(x);
      NoRequestsBracketed(all[5..], true);
      assert all[4..][1..] == all[5..] && all[3..][1..] == all[4..] && all[2..][1..] == all[3..] && all[1..][1..] == all[2..];
      assert Bracketed(all[4..], true) && Bracketed(all[3..], true) && Bracketed(all[2..], true) && Bracketed(all[1..], true);
  }

  // The flag is the parity of the toggles in the trace, and the trace keeps to the sessions.
  ghost predicate TraceOk(trace: seq<Command>, atMode: bool) {
    atMode == (Toggles(trace) % 2 == 1) && InSession(trace)
  }

  lemma {:induction false} IssueInSession(trace: seq<Command>, command: Command, atMode: bool)
    requires TraceOk(trace, atMode) && (command.Toggle? || atMode)
    ensures TraceOk(trace + [command], atMode != command.Toggle?)
  {
    var all := trace + [command];
    assert all[..|trace|] == trace;
    forall i | 0 <= i < |all| && !all[i].Toggle? ensures Toggles(all[..i]) % 2 == 1 {
      if i < |trace| {
        assert all[..i] == trace[..i];
      }
    }
  }

  lemma {:induction false} RunStageOk(policy: EmptyStage, d: Driver, stage: Stage, rest: seq<Stage>)
    requires DriverOk(d) && d.running.Some? && d.running.value.wait.Ready?
    requires Bracketed([stage] + rest, d.atMode)
    ensures DriverOk(RunStage(policy, d, stage, rest))
  {
    assert ([stage] + rest)[1..] == rest;
    match stage
    case EnterAtMode =>
      if d.atMode {
        SkipOk(policy, d, rest);
      } else {
        IssueOk(d, Toggle, true, rest);
      }
    case ExitAtMode =>
      if d.atMode {
        IssueOk(d, Toggle, false, rest);
      } else {
        SkipOk(policy, d, rest);
      }
    case Request(command) => IssueOk(d, command, d.atMode, rest);
    case Nothing => SkipOk(policy, d, rest);
    case Queued(op) => SkipOk(policy, d, rest);
    case _ =>
  }

  lemma {:induction false} IssueOk(d: Driver, command: Command, atMode: bool, rest: seq<Stage>)
    requires DriverOk(d) && d.running.Some? && d.running.value.wait.Ready? && Bracketed(rest, atMode)
    requires (command.Toggle? || d.atMode) && atMode == (d.atMode != command.Toggle?)
    ensures DriverOk(Issue(d.(atMode := atMode), command, rest))
  {
    IssueInSession(d.trace, command, d.atMode);
  }

  lemma {:induction false} SkipOk(policy: EmptyStage, d: Driver, rest: seq<Stage>)
    requires DriverOk(d) && d.running.Some? && d.running.value.wait.Ready? && Bracketed(rest, d.atMode)
    ensures DriverOk(Skip(policy, d, rest))
  {
  }

  lemma {:induction false} AdvanceOk(policy: EmptyStage, d: Driver)
    requires DriverOk(d)
    ensures DriverOk(Advance(policy, d))
  {
    if d.running.None? {
      if |d.outcomes| < |d.jobs| {
        StagesBracketed(d.jobs[|d.outcomes|], d.started, d.atMode);
      }
    } else if d.running.value.wait.Ready? && d.running.value.rest != [] {
      var rest := d.running.value.rest;
      assert [rest[0]] + rest[1..] == rest;
      RunStageOk(policy, d, rest[0], rest[1..]);
    }
  }

  lemma {:induction false} LoraStepOk(policy: EmptyStage, d: Driver, e: LoraEvent)
    requires DriverOk(d)
    ensures DriverOk(LoraStep(policy, d, e))
  {
    match e
    case Advanced => AdvanceOk(policy, d);
    case _ =>
  }

  lemma {:induction false} LoraRunOk(policy: EmptyStage, d: Driver, events: seq<LoraEvent>)
    requires DriverOk(d)
    ensures DriverOk(LoraRun(policy, d, events))
    decreases |events|
  {
    if events != [] {
      LoraStepOk(policy, d, events[0]);
      LoraRunOk(policy, LoraStep(policy, d, events[0]), events[1..]);
    }
  }

  /**
   Session discipline, over any run with any answers: the flag is the parity of
   the toggles handed out, and every other command is issued inside a session.
   */
  lemma {:induction false} SessionDiscipline(policy: EmptyStage, settings: Settings, events: seq<LoraEvent>)
    ensures var d := LoraRun(policy, Constructed(settings), events);
      && d.atMode == (Toggles(d.trace) % 2 == 1)
      && InSession(d.trace)
  {
    LoraRunOk(policy, Constructed(settings), events);
  }

  /* ---- What the module makes of it ---- */

  // Toggles that failed among those answered so far.
  function FailedToggles(trace: seq<Command>, answers: seq<bool>): nat
    requires |answers| <= |trace|
    decreases |answers|
  {
    if answers == [] then 0
    else
      var n := |answers| - 1;
      FailedToggles(trace, answers[..n]) + if trace[n].Toggle? && !answers[n] then 1 else 0
  }

  // The module changes its mode with each toggle it answers as expected.
  function ModuleInAtMode(trace: seq<Command>, answers: seq<bool>): bool
    requires |answers| <= |trace|
    decreases |answers|
  {
    if answers == [] then false
    else
      var n := |answers| - 1;
      ModuleInAtMode(trace, answers[..n]) != (trace[n].Toggle? && answers[n])
  }

  lemma {:induction false} ModeByParity(trace: seq<Command>, answers: seq<bool>)
    requires |answers| <= |trace|
    ensures ModuleInAtMode(trace, answers) <==> (Toggles(trace[..|answers|]) - FailedToggles(trace, answers)) % 2 == 1
    decreases |answers|
  {
    if answers != [] {
      var n := |answers| - 1;
      ModeByParity(trace, answers[..n]);
      assert trace[..n + 1][..n] == trace[..n];
    }
  }

  /**
   The flag tells the mode of the module if and only if an even number of toggles
   has failed; and a command other than a toggle finds the module in AT mode if
   and only if an even number of toggles failed before it.
   */
  lemma {:induction false} FlagTellsTheMode(policy: EmptyStage, settings: Settings, events: seq<LoraEvent>, i: nat)
    ensures var d := LoraRun(policy, Constructed(settings), events);
      && |d.answers| <= |d.trace|
      && (!Asking(d) ==>
            (d.atMode == ModuleInAtMode(d.trace, d.answers) <==> FailedToggles(d.trace, d.answers) % 2 == 0))
      && (i < |d.trace| && !d.trace[i].Toggle? ==>
            i <= |d.answers|
            && (ModuleInAtMode(d.trace, d.answers[..i]) <==> FailedToggles(d.trace, d.answers[..i]) % 2 == 0))
  {
    LoraRunOk(policy, Constructed(settings), events);
    FlagTellsTheModeIn(LoraRun(policy, Constructed(settings), events), i);
  }

  lemma {:induction false} FlagTellsTheModeIn(d: Driver, i: nat)
    requires DriverOk(d)
    ensures |d.answers| <= |d.trace|
    ensures !Asking(d) ==>
      (d.atMode == ModuleInAtMode(d.trace, d.answers) <==> FailedToggles(d.trace, d.answers) % 2 == 0)
    ensures i < |d.trace| && !d.trace[i].Toggle? ==>
      && i <= |d.answers|
      && (ModuleInAtMode(d.trace, d.answers[..i]) <==> FailedToggles(d.trace, d.answers[..i]) % 2 == 0)
  {
    assert i < |d.trace| && !d.trace[i].Toggle? ==> Toggles(d.trace[..i]) % 2 == 1;
    if !Asking(d) {
      assert d.trace[..|d.answers|] == d.trace;
      assert d.answers[..|d.answers|] == d.answers;
      ParityAt(d.trace, d.answers, |d.answers|);
    }
    if i < |d.trace| && !d.trace[i].Toggle? {
      ParityAt(d.trace, d.answers, i);
    }
  }

  // The mode differs from the parity of the toggles exactly if an odd number of them failed.
  lemma {:induction false} ParityAt(trace: seq<Command>, answers: seq<bool>, i: nat)
    requires i <= |answers| <= |trace|
    ensures (ModuleInAtMode(trace, answers[..i]) <==> Toggles(trace[..i]) % 2 == 1) <==>
            FailedToggles(trace, answers[..i]) % 2 == 0
  {
    ModeByParity(trace, answers[..i]);
    assert |answers[..i]| == i;
    Difference(Toggles(trace[..i]), FailedToggles(trace, answers[..i]));
  }

  lemma {:induction false} Difference(a: int, b: int)
    ensures ((a % 2 == 1) == ((a - b) % 2 == 1)) <==> b % 2 == 0
  {
  }

  // The first toggle fails; then an operation is pushed and comes to its command.
  const TOGGLE_FAILS := [Advanced, Advanced, Answered(false), Pushed(SetAddress(1)), Advanced, Advanced, Advanced]

  /** This happens: here a command is sent to a module that is not in AT mode, while the flag says it is. */
  lemma {:induction false} FlagMisleads(settings: Settings)
    ensures var d := LoraRun(CountsAsDone, Constructed(settings), TOGGLE_FAILS);
      && d.trace == [Toggle, Mac(1)] && d.answers == [false]
      && d.atMode && !ModuleInAtMode(d.trace, d.answers)
  {
    var d1 := LoraStep(CountsAsDone, Constructed(settings), Advanced);
    var d2 := LoraStep(CountsAsDone, d1, Advanced);
    assert d2.trace == [Toggle] && d2.atMode && Asking(d2);
    var d3 := LoraStep(CountsAsDone, d2, Answered(false));
    assert d3 == Constructed(settings).(atMode := true, outcomes := [false], trace := [Toggle], answers := [false]);
    var d4 := LoraStep(CountsAsDone, d3, Pushed(SetAddress(1)));
    FlagMisleadsLater(d4);
    assert TOGGLE_FAILS[1..][1..][1..][1..] == LATER;
    assert LoraRun(CountsAsDone, d3, TOGGLE_FAILS[1..][1..][1..]) == LoraRun(CountsAsDone, d4, LATER);
    assert LoraRun(CountsAsDone, d1, TOGGLE_FAILS[1..]) == LoraRun(CountsAsDone, d4, LATER);
  }

  const LATER := [Advanced, Advanced, Advanced]

  lemma {:induction false} FlagMisleadsLater(d4: Driver)
    requires d4.running.None? && |d4.outcomes| == 1 && |d4.jobs| == 2 && d4.jobs[1] == Public(SetAddress(1))
    requires d4.atMode && d4.trace == [Toggle] && d4.answers == [false]
    ensures var d := LoraRun(CountsAsDone, d4, LATER); d.trace == [Toggle, Mac(1)] && d.answers == [false] && d.atMode
  {
    var d5 := LoraStep(CountsAsDone, d4, Advanced);
    assert StagesOf(Public(SetAddress(1)), d4.started) == [EnterAtMode, Request(Mac(1)), ExitAtMode];
    assert d5.running == Some(Running([EnterAtMode, Request(Mac(1)), ExitAtMode], Ready));
    var d6 := LoraStep(CountsAsDone, d5, Advanced);
    assert d6.running == Some(Running([Request(Mac(1)), ExitAtMode], Ready));
    var d7 := LoraStep(CountsAsDone, d6, Advanced);
    assert d7.trace == [Toggle, Mac(1)];
    assert LATER[1..][1..] == [Advanced] && [Advanced][1..] == [];
    assert LoraRun(CountsAsDone, d6, [Advanced]) == LoraRun(CountsAsDone, d7, []);
    assert LoraRun(CountsAsDone, d4, LATER) == d7;
  }

  /* ---- Init ---- */

  // The stage that queues the power-save operation stands before the one that ends Init.
  ghost predicate BeforeTheQueuedStage(rest: seq<Stage>) {
    exists k :: 0 <= k < |rest| && rest[k].Queued? && Accepted(rest[k].op)
      && forall i :: 0 <= i < k ==> !rest[i].SetInitiated?
  }

  // The first job is Init, and it is still running, waiting for a later job, or over without success.
  ghost predicate InitPending(d: Driver) {
    && !d.initiated
    && d.jobs != [] && d.jobs[0].Init?
    && (forall i :: 1 <= i < |d.jobs| ==> d.jobs[i].Public?)
    && (if d.outcomes == [] then
          && (forall i :: 0 <= i < |d.answers| ==> d.answers[i])
          && (d.running.Some? ==> d.running.value.wait.ForJob? || BeforeTheQueuedStage(d.running.value.rest))
        else
          && !d.outcomes[0]
          && (d.running.Some? ==> forall i :: 0 <= i < |d.running.value.rest| ==>
                !d.running.value.rest[i].SetInitiated? && !d.running.value.rest[i].Queued?))
  }

  lemma {:induction false} PublicStages(op: Operation, started: bool)
    ensures forall i :: 0 <= i < |StagesOf(Public(op), started)| ==>
      !StagesOf(Public(op), started)[i].SetInitiated? && !StagesOf(Public(op), started)[i].Queued?
  {
  }

  lemma {:induction false} QueuedStageNext(rest: seq<Stage>)
    requires BeforeTheQueuedStage(rest)
    ensures rest != [] && !rest[0].SetInitiated?
    ensures (rest[0].Queued? && Accepted(rest[0].op)) || BeforeTheQueuedStage(rest[1..])
  {
    var k :| 0 <= k < |rest| && rest[k].Queued? && Accepted(rest[k].op) && forall i :: 0 <= i < k ==> !rest[i].SetInitiated?;
    if k > 0 {
      assert rest[1..][k - 1] == rest[k];
      assert forall i :: 0 <= i < k - 1 ==> rest[1..][i] == rest[i + 1];
    }
  }

  lemma {:induction false} InitStaysPending(policy: EmptyStage, d: Driver, e: LoraEvent)
    requires DriverOk(d) && InitPending(d)
    ensures InitPending(LoraStep(policy, d, e))
  {
    if e.Advanced? {
      if d.running.None? {
        BeginPending(policy, d);
      } else if d.running.value.wait.Ready? && d.running.value.rest != [] {
        var rest := d.running.value.rest;
        assert [rest[0]] + rest[1..] == rest;
        StagePending(policy, d, rest[0], rest[1..]);
      }
    }
  }

  lemma {:induction false} BeginPending(policy: EmptyStage, d: Driver)
    requires InitPending(d) && d.running.None?
    ensures InitPending(Advance(policy, d))
  {
    if d.outcomes == [] {
      var all := InitStages(d.jobs[0].settings);
      assert all[5].Queued? && Accepted(all[5].op);
      assert BeforeTheQueuedStage(all);
    } else if |d.outcomes| < |d.jobs| {
      PublicStages(d.jobs[|d.outcomes|].op, d.started);
    }
  }

  lemma {:induction false} StagePending(policy: EmptyStage, d: Driver, stage: Stage, rest: seq<Stage>)
    requires InitPending(d) && d.running == Some(Running([stage] + rest, Ready))
    ensures InitPending(RunStage(policy, d, stage, rest))
  {
    assert ([stage] + rest)[0] == stage && ([stage] + rest)[1..] == rest;
    if d.outcomes == [] {
      QueuedStageNext([stage] + rest);
    } else {
      assert forall i :: 0 <= i < |rest| ==> rest[i] == ([stage] + rest)[i + 1];
    }
  }

  lemma {:induction false} InitPendingRun(policy: EmptyStage, d: Driver, events: seq<LoraEvent>)
    requires DriverOk(d) && InitPending(d)
    ensures InitPending(LoraRun(policy, d, events))
    decreases |events|
  {
    if events != [] {
      LoraStepOk(policy, d, events[0]);
      InitStaysPending(policy, d, events[0]);
      InitPendingRun(policy, LoraStep(policy, d, events[0]), events[1..]);
    }
  }

  /** Init never completes: it waits for operations that are queued behind itself. */
  lemma {:induction false} InitNeverSucceeds(policy: EmptyStage, settings: Settings, events: seq<LoraEvent>)
    ensures var d := LoraRun(policy, Constructed(settings), events);
      !d.initiated && (d.outcomes == [] || !d.outcomes[0])
  {
    InitPendingRun(policy, Constructed(settings), events);
  }

  /** Once a job waits for one queued behind it, nothing is ever sent or finished again. */
  lemma {:induction false} BlockedForever(policy: EmptyStage, d: Driver, events: seq<LoraEvent>)
    requires DriverOk(d) && d.running.Some? && d.running.value.wait.ForJob?
    ensures LoraRun(policy, d, events) == d.(jobs := LoraRun(policy, d, events).jobs)
    decreases |events|
  {
    if events != [] {
      LoraStepOk(policy, d, events[0]);
      BlockedForever(policy, LoraStep(policy, d, events[0]), events[1..]);
    }
  }
}
