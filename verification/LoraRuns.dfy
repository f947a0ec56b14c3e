/**
 What the operations of the LR02 driver send to the module, without failures and
 after them, and that every queue of them comes to its end.
 */
module LoraRuns {
  import opened Wire
  import opened LoraModel
  import opened LoraSessions

  /* ---- The sequential reference ---- */

  /** The commands of an operation inside its session. */
  function CommandsOf(op: Operation): seq<Command> {
    match op
    case Start => []
    case Stop => [Reset]
    case SetPowerSaveParam(psp) =>
      [Mode(psp.mode), Level(psp.level), Power(psp.power)]
        + (if psp.bandWidth == BAND_WIDTH_125K then [BandWidth(0)] else [])
        + [CodingRate(psp.codingRate), SpreadingFactor(psp.spreadingFactor)]
    case SetAddress(address) => [Mac(address)]
    case SetChannel(channel) => [Channel(channel)]
    case SetCrcCheck(value) => [Crc(value)]
    case SetIqInversion(value) => [Iq(value)]
  }

  // One complete session; the entry is left out if the AT mode is on already.
  function Session(op: Operation, atMode: bool): seq<Command> {
    (if atMode then [] else [Toggle]) + CommandsOf(op) + [Toggle]
  }

  // Sessions one after the other; starting twice sends nothing.
  function Sessions(jobs: seq<Job>, started: bool, atMode: bool): seq<Command>
    requires forall i :: 0 <= i < |jobs| ==> jobs[i].Public?
  {
    if jobs == [] then []
    else
      var op := jobs[0].op;
      if op.Start? && started then Sessions(jobs[1..], started, atMode)
      else Session(op, atMode) + Sessions(jobs[1..], started || op.Start?, false)
  }

  predicate AnySession(jobs: seq<Job>, started: bool)
    requires forall i :: 0 <= i < |jobs| ==> jobs[i].Public?
  {
    jobs != [] && (!(jobs[0].op.Start? && started) || AnySession(jobs[1..], started))
  }

  /* ---- What is still to come if nothing fails ---- */

  datatype Future = Future(commands: seq<Command>, atMode: bool, started: bool)

  function Take(stage: Stage, f: Future): Future {
    match stage
    case EnterAtMode => if f.atMode then f else Future(f.commands + [Toggle], true, f.started)
    case ExitAtMode => if f.atMode then Future(f.commands + [Toggle], false, f.started) else f
    case Request(command) => f.(commands := f.commands + [command])
    case SetStarted => f.(started := true)
    case _ => f
  }

  function After(stages: seq<Stage>, f: Future): Future {
    if stages == [] then f else After(stages[1..], Take(stages[0], f))
  }

  function AfterJobs(jobs: seq<Job>, f: Future): Future {
    if jobs == [] then f else AfterJobs(jobs[1..], After(StagesOf(jobs[0], f.started), f))
  }

  function Now(d: Driver): Future {
    Future(d.trace, d.atMode, d.started)
  }

  // The jobs that have not begun.
  function Queue(d: Driver, jobs: seq<Job>): seq<Job> {
    var next := |d.outcomes| + (if d.running.Some? then 1 else 0);
    if next <= |jobs| then jobs[next..] else []
  }

  function Coming(d: Driver, jobs: seq<Job>): Future {
    AfterJobs(Queue(d, jobs), if d.running.Some? then After(d.running.value.rest, Now(d)) else Now(d))
  }

  predicate Idle(d: Driver) {
    d.running.None? && |d.outcomes| == |d.jobs|
  }

  predicate Plain(stages: seq<Stage>) {
    forall i :: 0 <= i < |stages| ==> !stages[i].Queued? && !stages[i].SetInitiated?
  }

  // Init is over: only operations that queue no others are left.
  ghost predicate Serving(d: Driver) {
    && |d.outcomes| <= |d.jobs|
    && (forall i :: |d.outcomes| <= i < |d.jobs| ==> d.jobs[i].Public?)
    && (d.running.Some? ==>
          |d.outcomes| < |d.jobs| && !d.running.value.wait.ForJob? && Plain(d.running.value.rest))
  }

  lemma {:induction false} StepServes(policy: EmptyStage, d: Driver, e: LoraEvent)
    requires Serving(d)
    ensures Serving(LoraStep(policy, d, e)) && d.jobs <= LoraStep(policy, d, e).jobs
  {
    if e.Advanced? {
      AdvanceServes(policy, d);
    }
  }

  lemma {:induction false} AdvanceServes(policy: EmptyStage, d: Driver)
    requires Serving(d)
    ensures Serving(Advance(policy, d)) && d.jobs == Advance(policy, d).jobs
  {
    if d.running.None? {
      if |d.outcomes| < |d.jobs| {
        PublicStages(d.jobs[|d.outcomes|].op, d.started);
      }
    } else if d.running.value.wait.Ready? && d.running.value.rest != [] {
      var rest := d.running.value.rest;
      StageServes(policy, d, rest[0], rest[1..]);
    }
  }

  lemma {:induction false} StageServes(policy: EmptyStage, d: Driver, stage: Stage, rest: seq<Stage>)
    requires Serving(d) && d.running.Some? && Plain(rest) && !stage.Queued?
    ensures Serving(RunStage(policy, d, stage, rest)) && d.jobs == RunStage(policy, d, stage, rest).jobs
  {
  }

  lemma {:induction false} RunServes(policy: EmptyStage, d: Driver, events: seq<LoraEvent>)
    requires Serving(d)
    ensures Serving(LoraRun(policy, d, events)) && d.jobs <= LoraRun(policy, d, events).jobs
    decreases |events|
  {
    if events != [] {
      StepServes(policy, d, events[0]);
      RunServes(policy, LoraStep(policy, d, events[0]), events[1..]);
    }
  }

  // A step that does not fail changes nothing of what will have been sent in the end.
  lemma {:induction false} StepComes(d: Driver, e: LoraEvent, jobs: seq<Job>)
    requires Serving(d) && e != Answered(false)
    requires LoraStep(CountsAsDone, d, e).jobs <= jobs
    ensures Coming(LoraStep(CountsAsDone, d, e), jobs) == Coming(d, jobs)
  {
    match e
    case Pushed(op) =>
    case Answered(ok) =>
    case Advanced =>
      AdvanceServes(CountsAsDone, d);
      AdvanceComes(d, jobs);
  }

  lemma {:induction false} AdvanceComes(d: Driver, jobs: seq<Job>)
    requires Serving(d) && d.jobs <= jobs
    ensures Coming(Advance(CountsAsDone, d), jobs) == Coming(d, jobs)
  {
    if d.running.None? {
      BeginComes(d, jobs);
    } else if d.running.value.wait.Ready? {
      var rest := d.running.value.rest;
      if rest == [] {
        EndComes(d, jobs);
      } else {
        StageComes(d, rest, jobs);
      }
    }
  }

  lemma {:induction false} EndComes(d: Driver, jobs: seq<Job>)
    requires d.running == Some(Running([], Ready))
    ensures Coming(Finish(d, true), jobs) == Coming(d, jobs)
  {
  }

  lemma {:induction false} BeginComes(d: Driver, jobs: seq<Job>)
    requires d.running.None? && d.jobs <= jobs
    ensures Coming(Advance(CountsAsDone, d), jobs) == Coming(d, jobs)
  {
    if |d.outcomes| < |d.jobs| {
      var t := Advance(CountsAsDone, d);
      assert Queue(d, jobs)[0] == d.jobs[|d.outcomes|] && Queue(d, jobs)[1..] == Queue(t, jobs);
      assert Now(t) == Now(d);
    }
  }

  lemma {:induction false} StageComes(d: Driver, rest: seq<Stage>, jobs: seq<Job>)
    requires d.running == Some(Running(rest, Ready)) && rest != [] && Plain(rest)
    ensures Coming(RunStage(CountsAsDone, d, rest[0], rest[1..]), jobs) == Coming(d, jobs)
  {
    StageTakes(d, rest[0], rest[1..]);
    assert After(rest, Now(d)) == After(rest[1..], Take(rest[0], Now(d)));
  }

  lemma {:induction false} StageTakes(d: Driver, stage: Stage, rest: seq<Stage>)
    requires d.running.Some? && !stage.Queued?
    ensures var t := RunStage(CountsAsDone, d, stage, rest);
      && Now(t) == Take(stage, Now(d))
      && t.running.Some? && t.running.value.rest == rest && t.outcomes == d.outcomes
  {
  }

  // Every job that ended since then ended well.
  ghost predicate AllWell(before: seq<bool>, after: seq<bool>) {
    before <= after && forall i :: |before| <= i < |after| ==> after[i]
  }

  lemma {:induction false} StepGoesWell(d: Driver, e: LoraEvent)
    requires Serving(d) && e != Answered(false)
    ensures AllWell(d.outcomes, LoraStep(CountsAsDone, d, e).outcomes)
  {
  }

  ghost predicate NoFailure(events: seq<LoraEvent>) {
    forall i :: 0 <= i < |events| ==> events[i] != Answered(false)
  }

  lemma {:induction false} RunComes(d: Driver, events: seq<LoraEvent>, jobs: seq<Job>)
    requires Serving(d) && NoFailure(events)
    requires LoraRun(CountsAsDone, d, events).jobs <= jobs
    ensures Coming(LoraRun(CountsAsDone, d, events), jobs) == Coming(d, jobs)
    ensures AllWell(d.outcomes, LoraRun(CountsAsDone, d, events).outcomes)
    decreases |events|
  {
    if events != [] {
      var d1 := LoraStep(CountsAsDone, d, events[0]);
      StepServes(CountsAsDone, d, events[0]);
      StepGoesWell(d, events[0]);
      RunServes(CountsAsDone, d1, events[1..]);
      StepComes(d, events[0], jobs);
      RunComes(d1, events[1..], jobs);
    }
  }

  /* ---- The reference is met ---- */

  lemma {:induction false} TakeAll(stages: seq<Stage>, more: seq<Stage>, f: Future)
    ensures After(stages + more, f) == After(more, After(stages, f))
  {
    if stages == [] {
      assert stages + more == more;
    } else {
      assert (stages + more)[1..] == stages[1..] + more;
      TakeAll(stages[1..], more, Take(stages[0], f));
    }
  }

  lemma {:induction false} AfterOne(stage: Stage, f: Future)
    ensures After([stage], f) == Take(stage, f)
  {
    assert [stage][1..] == [];
  }

  lemma {:induction false} AfterThree(a: Stage, b: Stage, c: Stage, f: Future)
    ensures After([a, b, c], f) == Take(c, Take(b, Take(a, f)))
  {
    assert [a, b, c][1..] == [b, c] && [b, c][1..] == [c];
    AfterOne(c, Take(b, Take(a, f)));
    assert After([b, c], Take(a, f)) == After([c], Take(b, Take(a, f)));
  }

  lemma {:induction false} AfterSix(body: seq<Stage>, f: Future)
    requires |body| == 6
    ensures After(body, f) ==
            Take(body[5], Take(body[4], Take(body[3], Take(body[2], Take(body[1], Take(body[0], f))))))
  {
    assert body == [body[0], body[1], body[2]] + [body[3], body[4], body[5]];
    AfterThree(body[0], body[1], body[2], f);
    AfterThree(body[3], body[4], body[5], After([body[0], body[1], body[2]], f));
    TakeAll([body[0], body[1], body[2]], [body[3], body[4], body[5]], f);
  }

  lemma {:induction false} AfterPowerSave(psp: PowerSaveParam, f: Future)
    ensures var op := SetPowerSaveParam(psp); After(Body(op), f) == f.(commands := f.commands + CommandsOf(op))
  {
    AfterSix(Body(SetPowerSaveParam(psp)), f);
  }

  lemma {:induction false} AfterBody(op: Operation, f: Future)
    ensures After(Body(op), f) == f.(commands := f.commands + CommandsOf(op))
  {
    var body := Body(op);
    match op
    case Start =>
      assert f.commands + [] == f.commands;
    case SetPowerSaveParam(psp) =>
      AfterPowerSave(psp, f);
    case _ =>
      AfterOne(body[0], f);
  }

  // The pipeline of an operation sends exactly its session.
  lemma {:induction false} AfterSession(op: Operation, f: Future)
    requires !(op.Start? && f.started)
    ensures After(StagesOf(Public(op), f.started), f) ==
            Future(f.commands + Session(op, f.atMode), false, f.started || op.Start?)
  {
    var last := if op.Start? then [SetStarted] else [];
    var f1 := Take(EnterAtMode, f);
    AfterParts([EnterAtMode], Body(op), [ExitAtMode], last, f);
    AfterOne(EnterAtMode, f);
    AfterBody(op, f1);
    var f2 := f1.(commands := f1.commands + CommandsOf(op));
    AfterOne(ExitAtMode, f2);
    AfterOne(SetStarted, Take(ExitAtMode, f2));
    SessionCommands(op, f, f2);
  }

  lemma {:induction false} AfterParts(a: seq<Stage>, b: seq<Stage>, c: seq<Stage>, d: seq<Stage>, f: Future)
    ensures After(a + b + c + d, f) == After(d, After(c, After(b, After(a, f))))
  {
    TakeAll(a + b + c, d, f);
    TakeAll(a + b, c, f);
    TakeAll(a, b, f);
  }

  lemma {:induction false} SessionCommands(op: Operation, f: Future, inside: Future)
    requires inside.commands == Take(EnterAtMode, f).commands + CommandsOf(op)
    ensures f.commands + Session(op, f.atMode) == inside.commands + [Toggle]
  {
  }

  // What an operation leaves behind.
  function AfterOperation(op: Operation, f: Future): Future {
    if op.Start? && f.started then f
    else Future(f.commands + Session(op, f.atMode), false, f.started || op.Start?)
  }

  lemma {:induction false} AfterFirst(op: Operation, rest: seq<Job>, f: Future)
    ensures AfterJobs([Public(op)] + rest, f) == AfterJobs(rest, AfterOperation(op, f))
  {
    assert ([Public(op)] + rest)[1..] == rest;
    if op.Start? && f.started {
      AfterOne(NotifyNow, f);
    } else {
      AfterSession(op, f);
    }
  }

  lemma {:induction false} SessionsFirst(op: Operation, rest: seq<Job>, f: Future)
    requires forall i :: 0 <= i < |rest| ==> rest[i].Public?
    ensures var jobs := [Public(op)] + rest; var next := AfterOperation(op, f);
      && f.commands + Sessions(jobs, f.started, f.atMode) == next.commands + Sessions(rest, next.started, next.atMode)
      && (f.atMode && !AnySession(jobs, f.started)) == (next.atMode && !AnySession(rest, next.started))
  {
    SessionsSplit(op, rest, f.started, f.atMode);
    if !(op.Start? && f.started) {
      Associative(f.commands, Session(op, f.atMode), Sessions(rest, f.started || op.Start?, false));
    }
  }

  lemma {:induction false} SessionsSplit(op: Operation, rest: seq<Job>, started: bool, atMode: bool)
    requires forall i :: 0 <= i < |rest| ==> rest[i].Public?
    ensures var jobs := [Public(op)] + rest;
      if op.Start? && started then
        Sessions(jobs, started, atMode) == Sessions(rest, started, atMode) && AnySession(jobs, started) == AnySession(rest, started)
      else
        Sessions(jobs, started, atMode) == Session(op, atMode) + Sessions(rest, started || op.Start?, false)
        && AnySession(jobs, started)
  {
    var jobs := [Public(op)] + rest;
    assert jobs[1..] == rest && jobs[0].op == op;
  }

  lemma {:induction false} Associative(a: seq<Command>, b: seq<Command>, c: seq<Command>)
    ensures a + b + c == a + (b + c)
  {
  }

  lemma {:induction false} AfterSessions(jobs: seq<Job>, f: Future)
    requires forall i :: 0 <= i < |jobs| ==> jobs[i].Public?
    ensures AfterJobs(jobs, f).commands == f.commands + Sessions(jobs, f.started, f.atMode)
    ensures AfterJobs(jobs, f).atMode == (f.atMode && !AnySession(jobs, f.started))
  {
    if jobs != [] {
      var op, rest := jobs[0].op, jobs[1..];
      assert jobs == [Public(op)] + rest;
      AfterFirst(op, rest, f);
      SessionsFirst(op, rest, f);
      AfterSessions(rest, AfterOperation(op, f));
    }
  }

  /**
   From any idle state on, whatever is pushed and whenever, as long as no request
   fails: what has been sent is a beginning of the complete sessions of the
   operations in the order they were pushed, and all of it once the driver is idle
   again; then every operation ended well, and the AT mode is off unless there was
   no session and it was on before.
   */
  lemma {:induction false} CompleteSessions(d: Driver, events: seq<LoraEvent>)
    requires Idle(d) && NoFailure(events)
    ensures var t := LoraRun(CountsAsDone, d, events);
      && d.jobs <= t.jobs
      && (forall i :: |d.jobs| <= i < |t.jobs| ==> t.jobs[i].Public?)
      && AllWell(d.outcomes, t.outcomes)
      && (var jobs := t.jobs[|d.jobs|..];
          && t.trace <= d.trace + Sessions(jobs, d.started, d.atMode)
          && (Idle(t) ==>
                && t.trace == d.trace + Sessions(jobs, d.started, d.atMode)
                && t.atMode == (d.atMode && !AnySession(jobs, d.started))))
  {
    var t := LoraRun(CountsAsDone, d, events);
    RunServes(CountsAsDone, d, events);
    PushedArePublic(CountsAsDone, d, events, |d.jobs|);
    RunComes(d, events, t.jobs);
    AfterSessions(t.jobs[|d.jobs|..], Now(d));
    ComingGrows(t, t.jobs);
  }

  ghost predicate PublicFrom(jobs: seq<Job>, n: nat) {
    n <= |jobs| && forall i :: n <= i < |jobs| ==> jobs[i].Public?
  }

  lemma {:induction false} StepPushesPublic(policy: EmptyStage, d: Driver, e: LoraEvent, n: nat)
    requires PublicFrom(d.jobs, n)
    ensures PublicFrom(LoraStep(policy, d, e).jobs, n)
  {
    if e.Advanced? {
      AdvancePushesPublic(policy, d, n);
    }
  }

  lemma {:induction false} AdvancePushesPublic(policy: EmptyStage, d: Driver, n: nat)
    requires PublicFrom(d.jobs, n)
    ensures PublicFrom(Advance(policy, d).jobs, n)
  {
  }

  lemma {:induction false} PushedArePublic(policy: EmptyStage, d: Driver, events: seq<LoraEvent>, n: nat)
    requires PublicFrom(d.jobs, n)
    ensures PublicFrom(LoraRun(policy, d, events).jobs, n)
    decreases |events|
  {
    if events != [] {
      StepPushesPublic(policy, d, events[0], n);
      PushedArePublic(policy, LoraStep(policy, d, events[0]), events[1..], n);
    }
  }

  lemma {:induction false} AfterGrows(stages: seq<Stage>, f: Future)
    ensures f.commands <= After(stages, f).commands
  {
    if stages != [] {
      AfterGrows(stages[1..], Take(stages[0], f));
    }
  }

  lemma {:induction false} AfterJobsGrows(jobs: seq<Job>, f: Future)
    ensures f.commands <= AfterJobs(jobs, f).commands
  {
    if jobs != [] {
      AfterGrows(StagesOf(jobs[0], f.started), f);
      AfterJobsGrows(jobs[1..], After(StagesOf(jobs[0], f.started), f));
    }
  }

  lemma {:induction false} ComingGrows(d: Driver, jobs: seq<Job>)
    ensures d.trace <= Coming(d, jobs).commands
  {
    if d.running.Some? {
      AfterGrows(d.running.value.rest, Now(d));
    }
    AfterJobsGrows(Queue(d, jobs), if d.running.Some? then After(d.running.value.rest, Now(d)) else Now(d));
  }

  lemma {:induction false} RunInTwo(policy: EmptyStage, d: Driver, first: seq<LoraEvent>, second: seq<LoraEvent>)
    ensures LoraRun(policy, d, first + second) == LoraRun(policy, LoraRun(policy, d, first), second)
    decreases |first|
  {
    if first == [] {
      assert first + second == second;
    } else {
      assert (first + second)[1..] == first[1..] + second;
      RunInTwo(policy, LoraStep(policy, d, first[0]), first[1..], second);
    }
  }

  // How far the job next in the queue of d has come in t, if nothing has failed since.
  ghost predicate OnItsWay(d: Driver, op: Operation, t: Driver) {
    && Serving(t) && d.jobs <= t.jobs
    && (if t.outcomes == d.outcomes then
          if t.running.None? then Now(t) == Now(d)
          else After(t.running.value.rest, Now(t)) == AfterOperation(op, Now(d))
        else if t.running.None? && |t.outcomes| == |d.outcomes| + 1 then
          t.outcomes == d.outcomes + [true] && Now(t) == AfterOperation(op, Now(d))
        else
          |t.outcomes| > |d.outcomes|)
  }

  lemma {:induction false} StepOnItsWay(d: Driver, op: Operation, t: Driver, e: LoraEvent)
    requires |d.outcomes| < |d.jobs| && d.jobs[|d.outcomes|] == Public(op) && !(op.Start? && d.started)
    requires OnItsWay(d, op, t) && e != Answered(false)
    ensures OnItsWay(d, op, LoraStep(CountsAsDone, t, e))
  {
    StepServes(CountsAsDone, t, e);
    if e.Advanced? {
      if t.running.None? {
        BeginOnItsWay(d, op, t);
      } else if t.running.value.wait.Ready? && t.running.value.rest != [] {
        StageOnItsWay(t, t.running.value.rest);
      }
    }
  }

  lemma {:induction false} BeginOnItsWay(d: Driver, op: Operation, t: Driver)
    requires |d.outcomes| < |d.jobs| && d.jobs[|d.outcomes|] == Public(op) && !(op.Start? && d.started)
    requires OnItsWay(d, op, t) && t.running.None? && Serving(Advance(CountsAsDone, t))
    ensures OnItsWay(d, op, Advance(CountsAsDone, t))
  {
    AfterSession(op, Now(d));
  }

  lemma {:induction false} StageOnItsWay(t: Driver, rest: seq<Stage>)
    requires t.running == Some(Running(rest, Ready)) && rest != [] && Plain(rest)
    ensures var u := RunStage(CountsAsDone, t, rest[0], rest[1..]);
      && u.outcomes == t.outcomes && u.running.Some?
      && After(u.running.value.rest, Now(u)) == After(rest, Now(t))
  {
    StageTakes(t, rest[0], rest[1..]);
  }

  lemma {:induction false} RunOnItsWay(d: Driver, op: Operation, t: Driver, events: seq<LoraEvent>)
    requires |d.outcomes| < |d.jobs| && d.jobs[|d.outcomes|] == Public(op) && !(op.Start? && d.started)
    requires OnItsWay(d, op, t) && NoFailure(events)
    ensures OnItsWay(d, op, LoraRun(CountsAsDone, t, events))
    decreases |events|
  {
    if events != [] {
      StepOnItsWay(d, op, t, events[0]);
      RunOnItsWay(d, op, LoraStep(CountsAsDone, t, events[0]), events[1..]);
    }
  }

  // The operation at the head of the queue is over, and the next one has not begun.
  predicate JustOver(d: Driver, t: Driver) {
    t.running.None? && |t.outcomes| == |d.outcomes| + 1
  }

  // No job runs, and the operation is the next one.
  predicate NextIs(d: Driver, op: Operation) {
    d.running.None? && |d.outcomes| < |d.jobs| && d.jobs[|d.outcomes|] == Public(op)
  }

  /**
   An operation none of whose requests fails, whatever is queued before, behind
   or during it, sends its session, without an entry if the AT mode is on, ends
   well, and leaves the AT mode off.
   */
  lemma {:induction false} HeadOfTheQueue(d: Driver, op: Operation, events: seq<LoraEvent>)
    requires Serving(d) && NextIs(d, op) && !(op.Start? && d.started)
    requires NoFailure(events) && JustOver(d, LoraRun(CountsAsDone, d, events))
    ensures var t := LoraRun(CountsAsDone, d, events);
      && t.trace == d.trace + Session(op, d.atMode)
      && t.outcomes == d.outcomes + [true]
      && !t.atMode
  {
    RunOnItsWay(d, op, d, events);
  }

  // Where Init stands first in the queue, an operation can only be next when Init is over.
  lemma {:induction false} NextIsServed(settings: Settings, events: seq<LoraEvent>, op: Operation)
    requires NextIs(LoraRun(CountsAsDone, Constructed(settings), events), op)
    ensures Serving(LoraRun(CountsAsDone, Constructed(settings), events))
  {
    InitPendingRun(CountsAsDone, Constructed(settings), events);
  }

  /**
   Recovery: after any run with any failures, whatever is still queued, the next
   operation none of whose requests fails sends no second entry if the AT mode was
   left on, ends well, and leaves the AT mode off, whatever is pushed meanwhile.
   */
  lemma {:induction false} Recovery(settings: Settings, before: seq<LoraEvent>, op: Operation, after: seq<LoraEvent>)
    requires NextIs(LoraRun(CountsAsDone, Constructed(settings), before), op)
    requires !(op.Start? && LoraRun(CountsAsDone, Constructed(settings), before).started)
    requires NoFailure(after)
    requires JustOver(LoraRun(CountsAsDone, Constructed(settings), before),
                      LoraRun(CountsAsDone, Constructed(settings), before + after))
    ensures var d := LoraRun(CountsAsDone, Constructed(settings), before);
      var t := LoraRun(CountsAsDone, Constructed(settings), before + after);
      && t.trace == d.trace + Session(op, d.atMode)
      && t.outcomes == d.outcomes + [true]
      && !t.atMode
  {
    RunInTwo(CountsAsDone, Constructed(settings), before, after);
    NextIsServed(settings, before, op);
    HeadOfTheQueue(LoraRun(CountsAsDone, Constructed(settings), before), op, after);
  }

  /** In particular, if the driver was idle and is idle again. */
  lemma {:induction false} RecoveryWhenIdle(settings: Settings, before: seq<LoraEvent>, op: Operation,
                                            after: seq<LoraEvent>)
    requires Idle(LoraRun(CountsAsDone, Constructed(settings), before)) && Accepted(op)
    requires !(op.Start? && LoraRun(CountsAsDone, Constructed(settings), before).started)
    requires NoFailure(after) && forall i :: 0 <= i < |after| ==> !after[i].Pushed?
    requires Idle(LoraRun(CountsAsDone, Constructed(settings), before + [Pushed(op)] + after))
    ensures var d := LoraRun(CountsAsDone, Constructed(settings), before);
      var t := LoraRun(CountsAsDone, Constructed(settings), before + [Pushed(op)] + after);
      && t.trace == d.trace + Session(op, d.atMode)
      && t.outcomes == d.outcomes + [true]
      && !t.atMode
  {
    var d := LoraRun(CountsAsDone, Constructed(settings), before);
    RunInTwo(CountsAsDone, Constructed(settings), before, [Pushed(op)]);
    RunInTwo(CountsAsDone, Constructed(settings), before + [Pushed(op)], after);
    assert [Pushed(op)][1..] == [] && LoraRun(CountsAsDone, Push(d, op), []) == Push(d, op);
    NextIsServed(settings, before + [Pushed(op)], op);
    NothingPushed(CountsAsDone, Push(d, op), after);
    Recovery(settings, before + [Pushed(op)], op, after);
  }

  lemma {:induction false} NothingPushed(policy: EmptyStage, d: Driver, events: seq<LoraEvent>)
    requires Serving(d) && forall i :: 0 <= i < |events| ==> !events[i].Pushed?
    ensures LoraRun(policy, d, events).jobs == d.jobs
    decreases |events|
  {
    if events != [] {
      JobsStay(policy, d, events[0]);
      NothingPushed(policy, LoraStep(policy, d, events[0]), events[1..]);
    }
  }

  lemma {:induction false} JobsStay(policy: EmptyStage, d: Driver, e: LoraEvent)
    requires Serving(d) && !e.Pushed?
    ensures var d1 := LoraStep(policy, d, e); Serving(d1) && d1.jobs == d.jobs
  {
    StepServes(policy, d, e);
    if e.Advanced? {
      AdvanceServes(policy, d);
    }
  }

  /* ---- If an empty stage counts as failed ---- */

  // The AT mode was left on and the pipeline now running, if any, has sent nothing yet.
  ghost predicate Muted(d: Driver) {
    && d.atMode && Serving(d)
    && (d.running.Some? ==>
          && d.running.value.wait.Ready?
          && (if d.jobs[|d.outcomes|] == Public(Start) && d.started then d.running.value.rest in [[NotifyNow], []]
              else d.running.value.rest != [] && d.running.value.rest[0] == EnterAtMode))
  }

  // Nothing was sent, and of the jobs that ended only a repeated start ended well.
  ghost predicate NothingDone(d: Driver, t: Driver) {
    && t.trace == d.trace && t.atMode == d.atMode && t.started == d.started
    && d.jobs <= t.jobs && d.outcomes <= t.outcomes && |t.outcomes| <= |t.jobs|
    && (forall i :: |d.outcomes| <= i < |t.outcomes| ==> (t.outcomes[i] <==> t.jobs[i] == Public(Start) && d.started))
  }

  lemma {:induction false} StepStaysMuted(d: Driver, e: LoraEvent)
    requires Muted(d)
    ensures var t := LoraStep(CountsAsFailed, d, e); Muted(t) && NothingDone(d, t)
  {
    StepServes(CountsAsFailed, d, e);
  }

  /**
   If an empty stage counts as failed there is no recovery: once an operation has
   failed with the AT mode on, no operation ever sends anything again, and every
   operation fails, except starting what is started already.
   */
  lemma {:induction false} MutedForever(d: Driver, events: seq<LoraEvent>)
    requires Muted(d)
    ensures NothingDone(d, LoraRun(CountsAsFailed, d, events))
    decreases |events|
  {
    if events != [] {
      StepStaysMuted(d, events[0]);
      MutedForever(LoraStep(CountsAsFailed, d, events[0]), events[1..]);
    }
  }

  // Init has entered the AT mode, and the stage that queues an operation is still ahead of it.
  ghost predicate InsideInit(d: Driver, rest: seq<Stage>) {
    && d.atMode
    && (exists k: nat :: RequestsUpTo(rest, k))
  }

  // Before the stage at k, which queues an operation, stand only requests.
  ghost predicate RequestsUpTo(rest: seq<Stage>, k: nat) {
    && k < |rest| && rest[k].Queued? && Accepted(rest[k].op)
    && (forall i :: 0 <= i < k ==> rest[i].Request? || rest[i].Nothing?)
  }

  // Init has not failed yet, or it has and with it everything after it.
  ghost predicate Doomed(d: Driver) {
    && !d.started && d.jobs != [] && d.jobs[0].Init?
    && (forall i :: 1 <= i < |d.jobs| ==> d.jobs[i].Public?)
    && (if d.outcomes == [] then
          d.running.Some? ==>
            || d.running.value.wait.ForJob?
            || InsideInit(d, d.running.value.rest)
            || (d.running.value == Running(InitStages(d.jobs[0].settings), Ready) && !d.atMode)
        else
          Muted(d) && forall i :: 0 <= i < |d.outcomes| ==> !d.outcomes[i])
    && (d.outcomes == [] && d.running.None? ==> !d.atMode)
  }

  lemma {:induction false} NextInsideInit(d: Driver, stage: Stage, rest: seq<Stage>)
    requires InsideInit(d, [stage] + rest)
    ensures if stage.Queued? then Accepted(stage.op)
            else (stage.Request? || stage.Nothing?) && forall t: Driver :: t.atMode ==> InsideInit(t, rest)
  {
    var all := [stage] + rest;
    var k: nat :| RequestsUpTo(all, k);
    assert all[0] == stage;
    if k > 0 {
      assert all[k] == rest[k - 1];
      assert forall i :: 0 <= i < k - 1 ==> rest[i] == all[i + 1];
      assert RequestsUpTo(rest, k - 1);
    }
  }

  lemma {:induction false} EnterInit(d: Driver)
    requires Doomed(d) && d.outcomes == [] && d.running == Some(Running(InitStages(d.jobs[0].settings), Ready)) && !d.atMode
    ensures Doomed(Advance(CountsAsFailed, d))
  {
    var all := InitStages(d.jobs[0].settings);
    assert all[1..][4] == all[5] && all[5].Queued? && Accepted(all[5].op);
    assert forall i :: 0 <= i < 4 ==> all[1..][i] == all[i + 1];
    assert RequestsUpTo(all[1..], 4);
    assert InsideInit(Advance(CountsAsFailed, d), all[1..]);
  }

  lemma {:induction false} GoOnInInit(d: Driver, stage: Stage, rest: seq<Stage>)
    requires Doomed(d) && d.outcomes == [] && d.running == Some(Running([stage] + rest, Ready))
    requires InsideInit(d, [stage] + rest)
    ensures Doomed(RunStage(CountsAsFailed, d, stage, rest))
  {
    NextInsideInit(d, stage, rest);
  }

  lemma {:induction false} StaysDoomed(d: Driver, e: LoraEvent)
    requires DriverOk(d) && Doomed(d)
    ensures Doomed(LoraStep(CountsAsFailed, d, e))
  {
    if d.outcomes != [] {
      StepStaysMuted(d, e);
      StepPushesPublic(CountsAsFailed, d, e, 1);
    } else if e.Advanced? && d.running.Some? && d.running.value.wait.Ready? {
      var rest := d.running.value.rest;
      if InsideInit(d, rest) {
        assert rest == [rest[0]] + rest[1..];
        GoOnInInit(d, rest[0], rest[1..]);
      } else {
        EnterInit(d);
      }
    }
  }

  lemma {:induction false} RunStaysDoomed(d: Driver, events: seq<LoraEvent>)
    requires DriverOk(d) && Doomed(d)
    ensures Doomed(LoraRun(CountsAsFailed, d, events))
    decreases |events|
  {
    if events != [] {
      LoraStepOk(CountsAsFailed, d, events[0]);
      StaysDoomed(d, events[0]);
      RunStaysDoomed(LoraStep(CountsAsFailed, d, events[0]), events[1..]);
    }
  }

  /**
   So, if an empty stage counts as failed, no operation of a constructed driver
   ever succeeds: either Init keeps the queue to itself, or it has failed and left
   the AT mode on.
   */
  lemma {:induction false} NothingEverSucceeds(settings: Settings, events: seq<LoraEvent>)
    ensures var d := LoraRun(CountsAsFailed, Constructed(settings), events);
      && (forall i :: 0 <= i < |d.outcomes| ==> !d.outcomes[i])
      && (d.outcomes != [] ==> d.atMode)
  {
    RunStaysDoomed(Constructed(settings), events);
  }

  /* ---- Draining ---- */

  // No operation has more stages than this.
  const MOST_STAGES := 8

  // A bound on the events until the driver is idle.
  function Measure(d: Driver): nat {
    (if d.running.Some? then 2 * |d.running.value.rest| + (if Asking(d) then 2 else 1) else 0)
    + |Queue(d, d.jobs)| * (2 * MOST_STAGES + 2)
  }

  // The next thing that happens if nothing new is pushed: an answer if one is due.
  function NextEvent(d: Driver, answer: nat -> bool): LoraEvent {
    if Asking(d) then Answered(answer(|d.answers|)) else Advanced
  }

  lemma {:induction false} MeasureDrops(policy: EmptyStage, d: Driver, answer: nat -> bool)
    requires Serving(d) && !Idle(d)
    ensures Measure(LoraStep(policy, d, NextEvent(d, answer))) < Measure(d)
  {
    if d.running.None? {
      BeginDrops(policy, d);
    } else if d.running.value.wait.Ready? {
      StageDrops(policy, d);
    }
  }

  lemma {:induction false} BeginDrops(policy: EmptyStage, d: Driver)
    requires Serving(d) && !Idle(d) && d.running.None?
    ensures Measure(Advance(policy, d)) < Measure(d)
  {
    var stages := StagesOf(d.jobs[|d.outcomes|], d.started);
    assert |stages| <= MOST_STAGES;
    var t := Advance(policy, d);
    assert t == Continue(d, stages);
    assert |Queue(d, d.jobs)| == |Queue(t, t.jobs)| + 1;
    assert Measure(t) == 2 * |stages| + 1 + |Queue(t, t.jobs)| * 18;
    assert Measure(d) == |Queue(d, d.jobs)| * 18;
  }

  lemma {:induction false} StageDrops(policy: EmptyStage, d: Driver)
    requires Serving(d) && d.running.Some? && d.running.value.wait.Ready?
    ensures Measure(Advance(policy, d)) < Measure(d)
  {
    var rest := d.running.value.rest;
    if rest != [] {
      assert [rest[0]] + rest[1..] == rest;
      StageDrop(policy, d, rest[0], rest[1..]);
    }
  }

  lemma {:induction false} StageDrop(policy: EmptyStage, d: Driver, stage: Stage, rest: seq<Stage>)
    requires d.running == Some(Running([stage] + rest, Ready)) && !stage.Queued? && |d.outcomes| < |d.jobs|
    ensures Measure(RunStage(policy, d, stage, rest)) < Measure(d)
  {
    var t := RunStage(policy, d, stage, rest);
    assert t.jobs == d.jobs && |Queue(t, t.jobs)| == |Queue(d, d.jobs)|;
  }

  // The events are what happens by itself, given the answers.
  ghost predicate Follows(policy: EmptyStage, d: Driver, events: seq<LoraEvent>, answer: nat -> bool)
    decreases |events|
  {
    events != [] ==>
      events[0] == NextEvent(d, answer) && Follows(policy, LoraStep(policy, d, events[0]), events[1..], answer)
  }

  /**
   Whatever the module answers, if nothing more is pushed the queue of operations
   drains within a number of events given by its length.
   */
  lemma {:induction false} Drains(policy: EmptyStage, d: Driver, answer: nat -> bool) returns (events: seq<LoraEvent>)
    requires Serving(d)
    ensures |events| <= Measure(d)
    ensures Follows(policy, d, events, answer)
    ensures Idle(LoraRun(policy, d, events)) && LoraRun(policy, d, events).jobs == d.jobs
    decreases Measure(d)
  {
    if Idle(d) {
      events := [];
    } else {
      var e := NextEvent(d, answer);
      var t := LoraStep(policy, d, e);
      NextServes(policy, d, e);
      MeasureDrops(policy, d, answer);
      var rest := Drains(policy, t, answer);
      events := [e] + rest;
      FollowedBy(policy, d, e, rest, answer);
    }
  }

  lemma {:induction false} NextServes(policy: EmptyStage, d: Driver, e: LoraEvent)
    requires Serving(d) && !e.Pushed?
    ensures Serving(LoraStep(policy, d, e)) && LoraStep(policy, d, e).jobs == d.jobs
  {
    if e.Advanced? {
      AdvanceServes(policy, d);
    }
  }

  lemma {:induction false} FollowedBy(policy: EmptyStage, d: Driver, e: LoraEvent, rest: seq<LoraEvent>,
                                      answer: nat -> bool)
    requires e == NextEvent(d, answer) && Follows(policy, LoraStep(policy, d, e), rest, answer)
    ensures Follows(policy, d, [e] + rest, answer)
    ensures LoraRun(policy, d, [e] + rest) == LoraRun(policy, LoraStep(policy, d, e), rest)
  {
    assert ([e] + rest)[1..] == rest;
  }

  /* ---- Init ---- */

  /** All serial settings have a command. */
  predicate Known(x: Settings) {
    x.baud.Some? && x.parity.Some? && x.stopBits.Some?
  }

  // The event meets a stage of Init for a setting that has no command.
  predicate AtUnknownSetting(d: Driver, e: LoraEvent) {
    && e.Advanced? && d.outcomes == [] && d.running.Some? && d.running.value.wait.Ready?
    && d.running.value.rest != [] && d.running.value.rest[0].Nothing?
  }

  /** In the course of the run Init came to a setting that has no command. */
  predicate MetUnknownSetting(policy: EmptyStage, d: Driver, events: seq<LoraEvent>)
    decreases |events|
  {
    events != [] &&
    (AtUnknownSetting(d, events[0]) || MetUnknownSetting(policy, LoraStep(policy, d, events[0]), events[1..]))
  }

  // Before the stage at k, which queues an operation, only stages for settings can turn out empty.
  ghost predicate QueuedAt(atMode: bool, rest: seq<Stage>, k: nat) {
    && k < |rest| && rest[k].Queued? && Accepted(rest[k].op)
    && (forall i :: 0 <= i < k ==> rest[i].Request? || rest[i].Nothing? || (i == 0 && rest[0].EnterAtMode? && !atMode))
  }

  ghost predicate ToTheQueuedStage(atMode: bool, rest: seq<Stage>) {
    exists k: nat :: QueuedAt(atMode, rest, k)
  }

  ghost predicate AllTrue(answers: seq<bool>) {
    forall i :: 0 <= i < |answers| ==> answers[i]
  }

  lemma {:induction false} OneMoreAnswer(answers: seq<bool>, ok: bool)
    ensures AllTrue(answers + [ok]) <==> AllTrue(answers) && ok
  {
    var all := answers + [ok];
    assert all[|answers|] == ok && forall i :: 0 <= i < |answers| ==> all[i] == answers[i];
  }

  // Init is in its place in the queue as long as nothing has failed it.
  ghost predicate InitHolds(policy: EmptyStage, d: Driver, met: bool) {
    && d.jobs != []
    && (d.outcomes == [] <==> AllTrue(d.answers) && !(policy.CountsAsFailed? && met))
    && (d.outcomes == [] && d.running.Some? ==>
          d.running.value.wait.ForJob? || ToTheQueuedStage(d.atMode, d.running.value.rest))
    && (d.outcomes == [] && d.running.None? ==> !d.atMode && d.jobs[0].Init?)
  }

  lemma {:induction false} BeginHolds(policy: EmptyStage, d: Driver, met: bool)
    requires InitHolds(policy, d, met) && d.outcomes == [] && d.running.None?
    ensures InitHolds(policy, Advance(policy, d), met)
  {
    var all := InitStages(d.jobs[0].settings);
    assert all[5].Queued? && Accepted(all[5].op);
    assert QueuedAt(d.atMode, all, 5);
  }

  lemma {:induction false} StageHolds(policy: EmptyStage, d: Driver, stage: Stage, rest: seq<Stage>, met: bool)
    requires InitHolds(policy, d, met) && d.outcomes == [] && d.running == Some(Running([stage] + rest, Ready))
    ensures InitHolds(policy, RunStage(policy, d, stage, rest), met || stage.Nothing?)
  {
    NextStageHolds(d.atMode, stage, rest);
  }

  lemma {:induction false} NextStageHolds(atMode: bool, stage: Stage, rest: seq<Stage>)
    requires ToTheQueuedStage(atMode, [stage] + rest)
    ensures if stage.Queued? then Accepted(stage.op)
            else stage.Request? || stage.Nothing? || (stage.EnterAtMode? && !atMode)
    ensures !stage.Queued? ==> ToTheQueuedStage(true, rest) && ToTheQueuedStage(false, rest)
  {
    var all := [stage] + rest;
    var k: nat :| QueuedAt(atMode, all, k);
    assert all[0] == stage;
    if k > 0 {
      assert all[k] == rest[k - 1];
      assert forall i :: 0 <= i < k - 1 ==> rest[i] == all[i + 1];
      assert QueuedAt(true, rest, k - 1) && QueuedAt(false, rest, k - 1);
    }
  }

  lemma {:induction false} AnswerHolds(policy: EmptyStage, d: Driver, ok: bool, met: bool)
    requires InitHolds(policy, d, met)
    ensures InitHolds(policy, Answer(d, ok), met)
  {
    OneMoreAnswer(d.answers, ok);
  }

  lemma {:induction false} StepHolds(policy: EmptyStage, d: Driver, e: LoraEvent, met: bool)
    requires DriverOk(d) && InitHolds(policy, d, met)
    ensures InitHolds(policy, LoraStep(policy, d, e), met || AtUnknownSetting(d, e))
  {
    match e
    case Pushed(op) =>
    case Answered(ok) => AnswerHolds(policy, d, ok, met);
    case Advanced => AdvanceHolds(policy, d, met);
  }

  lemma {:induction false} AdvanceHolds(policy: EmptyStage, d: Driver, met: bool)
    requires InitHolds(policy, d, met)
    requires d.running.Some? && d.running.value.wait.ForJob? ==> d.running.value.wait.job >= |d.outcomes|
    ensures InitHolds(policy, Advance(policy, d), met || AtUnknownSetting(d, Advanced))
  {
    if d.outcomes == [] {
      if d.running.None? {
        BeginHolds(policy, d, met);
      } else if d.running.value.wait.Ready? {
        var rest := d.running.value.rest;
        assert rest != [];
        assert [rest[0]] + rest[1..] == rest;
        StageHolds(policy, d, rest[0], rest[1..], met);
      }
    } else {
      LaterHolds(policy, d, met);
    }
  }

  lemma {:induction false} LaterHolds(policy: EmptyStage, d: Driver, met: bool)
    requires InitHolds(policy, d, met) && d.outcomes != []
    ensures InitHolds(policy, Advance(policy, d), met)
  {
    AdvanceGrows(policy, d);
  }

  lemma {:induction false} AdvanceGrows(policy: EmptyStage, d: Driver)
    ensures var t := Advance(policy, d); t.answers == d.answers && d.outcomes <= t.outcomes && d.jobs <= t.jobs
  {
    if d.running.Some? && d.running.value.wait.Ready? && d.running.value.rest != [] {
      StageGrows(policy, d, d.running.value.rest[0], d.running.value.rest[1..]);
    }
  }

  lemma {:induction false} StageGrows(policy: EmptyStage, d: Driver, stage: Stage, rest: seq<Stage>)
    ensures var t := RunStage(policy, d, stage, rest);
      t.answers == d.answers && d.outcomes <= t.outcomes && d.jobs <= t.jobs
  {
  }

  lemma {:induction false} RunHolds(policy: EmptyStage, d: Driver, events: seq<LoraEvent>, met: bool)
    requires DriverOk(d) && InitHolds(policy, d, met)
    ensures InitHolds(policy, LoraRun(policy, d, events), met || MetUnknownSetting(policy, d, events))
    decreases |events|
  {
    if events != [] {
      LoraStepOk(policy, d, events[0]);
      StepHolds(policy, d, events[0], met);
      RunHolds(policy, LoraStep(policy, d, events[0]), events[1..], met || AtUnknownSetting(d, events[0]));
    }
  }

  /**
   The operations queued behind Init get their turn if and only if one of Init's
   requests has failed or, where empty stages count as failed, Init came to a
   setting that has no command.
   */
  lemma {:induction false} ServedOnlyIfInitFailed(policy: EmptyStage, settings: Settings, events: seq<LoraEvent>)
    ensures var d := LoraRun(policy, Constructed(settings), events);
      d.outcomes != [] <==>
      || (exists i :: 0 <= i < |d.answers| && !d.answers[i])
      || (policy.CountsAsFailed? && MetUnknownSetting(policy, Constructed(settings), events))
  {
    RunHolds(policy, Constructed(settings), events, false);
  }

  // Init runs its own stages, none of which is empty.
  ghost predicate AllKnown(d: Driver) {
    && d.jobs != [] && d.jobs[0].Init? && Known(d.jobs[0].settings)
    && (d.outcomes == [] && d.running.Some? ==>
          forall i :: 0 <= i < |d.running.value.rest| ==> !d.running.value.rest[i].Nothing?)
  }

  lemma {:induction false} StepAllKnown(policy: EmptyStage, d: Driver, e: LoraEvent)
    requires AllKnown(d)
    ensures AllKnown(LoraStep(policy, d, e)) && !AtUnknownSetting(d, e)
  {
    if e.Advanced? {
      AdvanceAllKnown(policy, d);
    }
  }

  lemma {:induction false} AdvanceAllKnown(policy: EmptyStage, d: Driver)
    requires AllKnown(d)
    ensures AllKnown(Advance(policy, d))
  {
    if d.running.None? {
      InitStagesKnown(d.jobs[0].settings);
    } else if d.running.value.wait.Ready? && d.running.value.rest != [] {
      StageAllKnown(policy, d, d.running.value.rest);
    }
  }

  lemma {:induction false} InitStagesKnown(x: Settings)
    requires Known(x)
    ensures forall i :: 0 <= i < |InitStages(x)| ==> !InitStages(x)[i].Nothing?
  {
  }

  lemma {:induction false} StageAllKnown(policy: EmptyStage, d: Driver, rest: seq<Stage>)
    requires AllKnown(d) && rest != [] && d.running == Some(Running(rest, Ready))
    ensures AllKnown(RunStage(policy, d, rest[0], rest[1..]))
  {
    assert forall i :: 0 <= i < |rest[1..]| ==> rest[1..][i] == rest[i + 1];
  }

  /** With settings that have commands Init never comes to one that has none. */
  lemma {:induction false} NoUnknownSetting(policy: EmptyStage, d: Driver, events: seq<LoraEvent>)
    requires AllKnown(d)
    ensures !MetUnknownSetting(policy, d, events)
    decreases |events|
  {
    if events != [] {
      StepAllKnown(policy, d, events[0]);
      NoUnknownSetting(policy, LoraStep(policy, d, events[0]), events[1..]);
    }
  }
}
