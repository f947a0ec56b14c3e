/** What the first job of the LR02 driver sends and queues, and how the queue and the outcomes follow from a run. */
module LoraQueue {
  import opened Wire
  import opened LoraModel
  import opened LoraSessions
  import opened LoraRuns

  /** The operations pushed in a run, without those for a channel that is out of range. */
  function PushedIn(events: seq<LoraEvent>): seq<Operation> {
    if events == [] then []
    else
      var before, e := PushedIn(events[..|events| - 1]), events[|events| - 1];
      if e.Pushed? && !(e.op.SetChannel? && e.op.channel > 0x1E) then before + [e.op] else before
  }

  function Jobs(ops: seq<Operation>): seq<Job> {
    if ops == [] then [] else Jobs(ops[..|ops| - 1]) + [Public(ops[|ops| - 1])]
  }

  lemma {:induction false} OneMoreJob(ops: seq<Operation>, op: Operation)
    ensures Jobs(ops + [op]) == Jobs(ops) + [Public(op)]
  {
    assert (ops + [op])[..|ops|] == ops;
  }

  lemma {:induction false} JobsAre(ops: seq<Operation>)
    ensures |Jobs(ops)| == |ops| && forall i :: 0 <= i < |ops| ==> Jobs(ops)[i] == Public(ops[i])
  {
    if ops != [] {
      JobsAre(ops[..|ops| - 1]);
    }
  }

  // Init waits for the power-save operation it has queued.
  predicate Blocked(d: Driver) {
    d.running.Some? && d.running.value.wait.ForJob?
  }

  /** Init is first, and the operations pushed follow in order; where Init has queued one it stands among them. */
  ghost predicate QueueIs(d: Driver, x: Settings, pushed: seq<Operation>) {
    if Blocked(d) then
      var j := d.running.value.wait.job;
      && 1 <= j <= |pushed| + 1
      && d.jobs == [Init(x)] + Jobs(pushed[..j - 1]) + [Public(SetPowerSaveParam(x.psp))] + Jobs(pushed[j - 1..])
    else d.jobs == [Init(x)] + Jobs(pushed)
  }

  function KnownOne(setting: Option<nat>, command: nat -> Command): seq<Command> {
    if setting.Some? then [command(setting.value)] else []
  }

  /** What the first n stages of Init send. */
  function InitCommands(x: Settings, n: nat): seq<Command>
    requires n <= 5
  {
    if n == 0 then []
    else
      InitCommands(x, n - 1)
        + (match n
           case 1 => [Toggle]
           case 2 => [At]
           case 3 => KnownOne(x.baud, (v: nat) => Baud(v))
           case 4 => KnownOne(x.parity, (v: nat) => Parity(v))
           case _ => KnownOne(x.stopBits, (v: nat) => StopBits(v)))
  }

  // Init has run its first n stages, and so many commands have been sent.
  ghost predicate AtStage(d: Driver, x: Settings, r: Running, n: nat) {
    && n <= 5 && r.rest == InitStages(x)[n..]
    && d.trace == InitCommands(x, n) && d.atMode == (n > 0)
  }

  ghost predicate InitOk(d: Driver, x: Settings) {
    if d.outcomes == [] then
      && (d.running.None? ==> d.trace == [] && !d.atMode && d.jobs != [] && d.jobs[0] == Init(x))
      && (d.running.Some? ==>
            if Blocked(d) then d.trace == InitCommands(x, 5)
            else exists n: nat :: AtStage(d, x, d.running.value, n))
    else
      && (d.running.Some? ==>
            !Blocked(d) && forall i :: 0 <= i < |d.running.value.rest| ==> !d.running.value.rest[i].Queued?)
      && (forall i :: 1 <= i < |d.jobs| ==> d.jobs[i].Public?)
  }

  /* ---- One event ---- */

  lemma {:induction false} PushQueue(d: Driver, x: Settings, pushed: seq<Operation>, op: Operation)
    requires QueueIs(d, x, pushed)
    ensures QueueIs(Push(d, op), x, if !(op.SetChannel? && op.channel > 0x1E) then pushed + [op] else pushed)
  {
    if Accepted(op) {
      OneMoreJob(pushed, op);
      if Blocked(d) {
        var j := d.running.value.wait.job;
        PushedBehind([Init(x)] + Jobs(pushed[..j - 1]) + [Public(SetPowerSaveParam(x.psp))], pushed, j - 1, op);
      }
    }
  }

  lemma {:induction false} PushedBehind(first: seq<Job>, pushed: seq<Operation>, i: nat, op: Operation)
    requires i <= |pushed|
    ensures (pushed + [op])[..i] == pushed[..i]
    ensures first + Jobs(pushed[i..]) + [Public(op)] == first + Jobs((pushed + [op])[i..])
  {
    OneMoreJob(pushed[i..], op);
    assert (pushed + [op])[i..] == pushed[i..] + [op];
  }

  lemma {:induction false} InitStage(policy: EmptyStage, d: Driver, x: Settings, pushed: seq<Operation>, n: nat)
    requires d.outcomes == [] && d.running.Some? && d.running.value.wait.Ready? && AtStage(d, x, d.running.value, n)
    requires QueueIs(d, x, pushed)
    ensures d.running.value.rest != []
    ensures var t := RunStage(policy, d, d.running.value.rest[0], d.running.value.rest[1..]);
      QueueIs(t, x, pushed) && (InitOk(t, x) || t.outcomes == [false])
    ensures var t := RunStage(policy, d, d.running.value.rest[0], d.running.value.rest[1..]);
      t.outcomes != [] ==> t.running.None? && t.jobs == d.jobs
  {
    var all, rest := InitStages(x), d.running.value.rest;
    assert rest[0] == all[n] && rest[1..] == all[n + 1..];
    var t := RunStage(policy, d, rest[0], rest[1..]);
    if n < 5 {
      InitStageSends(policy, d, x, n);
      assert t.outcomes == [] ==> AtStage(t, x, t.running.value, n + 1);
    } else {
      assert t.running.value.wait == ForJob(|d.jobs|);
      JobsAre(pushed);
      assert pushed[..|pushed|] == pushed && pushed[|pushed|..] == [];
      assert t.jobs == [Init(x)] + Jobs(pushed) + [Public(SetPowerSaveParam(x.psp))] + Jobs([]);
    }
  }

  lemma {:induction false} InitStageSends(policy: EmptyStage, d: Driver, x: Settings, n: nat)
    requires n < 5 && d.trace == InitCommands(x, n) && d.atMode == (n > 0)
    ensures var t := RunStage(policy, d, InitStages(x)[n], InitStages(x)[n + 1..]);
      && t.jobs == d.jobs
      && (if t.running.Some?
          then t.outcomes == d.outcomes && t.trace == InitCommands(x, n + 1) && t.atMode
               && t.running.value.rest == InitStages(x)[n + 1..] && !t.running.value.wait.ForJob?
          else t.outcomes == d.outcomes + [false])
  {
    InitStageIs(x, n);
    StageSends(policy, d, InitStages(x)[n], InitStages(x)[n + 1..]);
  }

  // What a stage that queues nothing sends, if it enters the AT mode only from outside it.
  function CommandsAt(stage: Stage): seq<Command> {
    match stage
    case EnterAtMode => [Toggle]
    case Request(command) => [command]
    case _ => []
  }

  lemma {:induction false} InitStageIs(x: Settings, n: nat)
    requires n < 5
    ensures var stage := InitStages(x)[n];
      && (if n == 0 then stage.EnterAtMode? else stage.Request? || stage.Nothing?)
      && InitCommands(x, n + 1) == InitCommands(x, n) + CommandsAt(stage)
  {
    match n
    case 0 => assert InitCommands(x, 1) == InitCommands(x, 0) + [Toggle];
    case 1 => assert InitCommands(x, 2) == InitCommands(x, 1) + [At];
    case 2 => assert InitCommands(x, 3) == InitCommands(x, 2) + KnownOne(x.baud, (v: nat) => Baud(v));
    case 3 => assert InitCommands(x, 4) == InitCommands(x, 3) + KnownOne(x.parity, (v: nat) => Parity(v));
    case _ => assert InitCommands(x, 5) == InitCommands(x, 4) + KnownOne(x.stopBits, (v: nat) => StopBits(v));
  }

  lemma {:induction false} StageSends(policy: EmptyStage, d: Driver, stage: Stage, rest: seq<Stage>)
    requires if d.atMode then stage.Request? || stage.Nothing? else stage.EnterAtMode?
    ensures var t := RunStage(policy, d, stage, rest);
      && t.jobs == d.jobs
      && (if t.running.Some?
          then t.outcomes == d.outcomes && t.trace == d.trace + CommandsAt(stage) && t.atMode
               && t.running.value.rest == rest && !t.running.value.wait.ForJob?
          else t.outcomes == d.outcomes + [false])
  {
  }

  lemma {:induction false} LaterStage(policy: EmptyStage, d: Driver, x: Settings)
    requires d.outcomes != [] && InitOk(d, x)
    ensures var t := Advance(policy, d); InitOk(t, x) && t.jobs == d.jobs && t.outcomes != []
  {
    if d.running.None? {
      LaterBegins(policy, d, x);
    } else if d.running.value.wait.Ready? && d.running.value.rest != [] {
      var rest := d.running.value.rest;
      assert forall i :: 0 <= i < |rest[1..]| ==> rest[1..][i] == rest[i + 1];
      LaterRuns(policy, d, rest[0], rest[1..]);
    }
  }

  lemma {:induction false} LaterBegins(policy: EmptyStage, d: Driver, x: Settings)
    requires d.outcomes != [] && InitOk(d, x) && d.running.None?
    ensures var t := Advance(policy, d); InitOk(t, x) && t.jobs == d.jobs && t.outcomes != []
  {
    if |d.outcomes| < |d.jobs| {
      PublicStages(d.jobs[|d.outcomes|].op, d.started);
    }
  }

  lemma {:induction false} LaterRuns(policy: EmptyStage, d: Driver, stage: Stage, rest: seq<Stage>)
    requires !stage.Queued?
    ensures var t := RunStage(policy, d, stage, rest);
      && t.jobs == d.jobs && d.outcomes <= t.outcomes
      && (t.running.Some? ==> !Blocked(t) && t.running.value.rest == rest)
  {
  }

  lemma {:induction false} AdvanceInit(policy: EmptyStage, d: Driver, x: Settings, pushed: seq<Operation>)
    requires DriverOk(d) && InitOk(d, x) && QueueIs(d, x, pushed)
    ensures InitOk(Advance(policy, d), x) && QueueIs(Advance(policy, d), x, pushed)
  {
    JobsAre(pushed);
    if d.outcomes != [] {
      LaterStage(policy, d, x);
    } else if d.running.None? {
      assert AtStage(Advance(policy, d), x, Running(InitStages(x), Ready), 0);
    } else if !Blocked(d) && d.running.value.wait.Ready? {
      var n: nat :| AtStage(d, x, d.running.value, n);
      InitStage(policy, d, x, pushed, n);
    }
  }

  lemma {:induction false} AnswerInit(d: Driver, x: Settings, pushed: seq<Operation>, ok: bool)
    requires InitOk(d, x) && QueueIs(d, x, pushed)
    ensures InitOk(Answer(d, ok), x) && QueueIs(Answer(d, ok), x, pushed)
  {
    JobsAre(pushed);
    if Asking(d) && ok && d.outcomes == [] {
      var n: nat :| AtStage(d, x, d.running.value, n);
      assert AtStage(Answer(d, ok), x, Answer(d, ok).running.value, n);
    }
  }

  lemma {:induction false} LastOfRun(policy: EmptyStage, d: Driver, events: seq<LoraEvent>)
    requires events != []
    ensures LoraRun(policy, d, events) ==
            LoraStep(policy, LoraRun(policy, d, events[..|events| - 1]), events[|events| - 1])
    decreases |events|
  {
    if |events| > 1 {
      assert events[1..][..|events| - 2] == events[..|events| - 1][1..];
      LastOfRun(policy, LoraStep(policy, d, events[0]), events[1..]);
    }
  }

  lemma {:induction false} PushInit(d: Driver, x: Settings, op: Operation)
    requires InitOk(d, x)
    ensures InitOk(Push(d, op), x)
  {
    if d.outcomes == [] && d.running.Some? && !Blocked(d) {
      var n: nat :| AtStage(d, x, d.running.value, n);
      assert AtStage(Push(d, op), x, Push(d, op).running.value, n);
    }
  }

  lemma {:induction false} InitRun(policy: EmptyStage, x: Settings, events: seq<LoraEvent>)
    ensures var d := LoraRun(policy, Constructed(x), events); InitOk(d, x) && QueueIs(d, x, PushedIn(events))
  {
    if events == [] {
      assert [Init(x)] + Jobs([]) == [Init(x)];
    } else {
      var before, e := events[..|events| - 1], events[|events| - 1];
      var d := LoraRun(policy, Constructed(x), before);
      InitRun(policy, x, before);
      LoraRunOk(policy, Constructed(x), before);
      LastOfRun(policy, Constructed(x), events);
      match e
      case Pushed(op) =>
        PushQueue(d, x, PushedIn(before), op);
        PushInit(d, x, op);
      case Advanced => AdvanceInit(policy, d, x, PushedIn(before));
      case Answered(ok) => AnswerInit(d, x, PushedIn(before), ok);
    }
  }

  /* ---- Whole runs ---- */

  /**
   Over any run with any answers the queue is Init followed by the operations that
   were pushed, in order, without those for a channel out of range; and once Init
   waits for the power-save operation, that one stands where Init has queued it.
   */
  lemma {:induction false} QueueFollows(policy: EmptyStage, x: Settings, events: seq<LoraEvent>)
    ensures QueueIs(LoraRun(policy, Constructed(x), events), x, PushedIn(events))
  {
    InitRun(policy, x, events);
  }

  /**
   Over any run, until Init is over, what has been sent is a beginning of the toggle,
   the attention command and the commands of the serial settings that have one; all
   of it once Init waits.
   */
  lemma {:induction false} InitSends(policy: EmptyStage, x: Settings, events: seq<LoraEvent>)
    requires LoraRun(policy, Constructed(x), events).outcomes == []
    ensures var d := LoraRun(policy, Constructed(x), events);
      && d.trace <= InitCommands(x, 5)
      && (Blocked(d) ==> d.trace == InitCommands(x, 5))
  {
    InitRun(policy, x, events);
    var d := LoraRun(policy, Constructed(x), events);
    if d.running.Some? && !Blocked(d) {
      var n: nat :| AtStage(d, x, d.running.value, n);
      CommandsGrow(x, n);
    }
  }

  lemma {:induction false} CommandsGrow(x: Settings, n: nat)
    requires n <= 5
    ensures InitCommands(x, n) <= InitCommands(x, 5)
    decreases 5 - n
  {
    if n < 5 {
      CommandsGrow(x, n + 1);
    }
  }

  ghost predicate NoneFails(events: seq<LoraEvent>) {
    forall i :: 0 <= i < |events| ==> !events[i].Pushed? && events[i] != Answered(false)
  }

  // From its n-th stage Init comes to wait if nothing fails.
  lemma {:induction false} GetsOn(d: Driver, x: Settings, n: nat) returns (events: seq<LoraEvent>)
    requires d.outcomes == [] && d.running.Some? && d.running.value.wait.Ready? && AtStage(d, x, d.running.value, n)
    ensures NoneFails(events) && |events| <= 2 * (5 - n) + 1
    ensures Blocked(LoraRun(CountsAsDone, d, events)) && LoraRun(CountsAsDone, d, events).outcomes == []
    decreases 5 - n
  {
    if n == 5 {
      events := [Advanced];
      QueuesAndWaits(d, x);
    } else {
      var first := NextStage(d, x, n);
      var rest := GetsOn(LoraRun(CountsAsDone, d, first), x, n + 1);
      events := first + rest;
      RunInTwo(CountsAsDone, d, first, rest);
    }
  }

  lemma {:induction false} QueuesAndWaits(d: Driver, x: Settings)
    requires d.outcomes == [] && d.running.Some? && d.running.value.wait.Ready? && AtStage(d, x, d.running.value, 5)
    ensures Blocked(LoraRun(CountsAsDone, d, [Advanced])) && LoraRun(CountsAsDone, d, [Advanced]).outcomes == []
  {
    assert d.running.value.rest[0] == Queued(SetPowerSaveParam(x.psp));
    var t := LoraStep(CountsAsDone, d, Advanced);
    assert LoraRun(CountsAsDone, t, []) == t;
  }

  // One stage, with the answer it waits for.
  lemma {:induction false} NextStage(d: Driver, x: Settings, n: nat) returns (first: seq<LoraEvent>)
    requires d.outcomes == [] && d.running.Some? && d.running.value.wait.Ready? && AtStage(d, x, d.running.value, n)
    requires n < 5
    ensures NoneFails(first) && |first| <= 2
    ensures var u := LoraRun(CountsAsDone, d, first);
      u.outcomes == [] && u.running.Some? && u.running.value.wait.Ready? && AtStage(u, x, u.running.value, n + 1)
  {
    var t := LoraStep(CountsAsDone, d, Advanced);
    StageRuns(d, x, n);
    if Asking(t) {
      first := [Advanced, Answered(true)];
      assert first[1..] == [Answered(true)] && first[1..][1..] == [];
      assert LoraRun(CountsAsDone, t, first[1..]) == LoraStep(CountsAsDone, t, Answered(true));
    } else {
      first := [Advanced];
      assert LoraRun(CountsAsDone, t, []) == t;
    }
  }

  lemma {:induction false} StageRuns(d: Driver, x: Settings, n: nat)
    requires d.outcomes == [] && d.running.Some? && d.running.value.wait.Ready? && AtStage(d, x, d.running.value, n)
    requires n < 5
    ensures var t := LoraStep(CountsAsDone, d, Advanced);
      var u := if Asking(t) then LoraStep(CountsAsDone, t, Answered(true)) else t;
      u.outcomes == [] && u.running.Some? && u.running.value.wait.Ready? && AtStage(u, x, u.running.value, n + 1)
  {
    var all := InitStages(x);
    assert d.running.value.rest[0] == all[n] && d.running.value.rest[1..] == all[n + 1..];
    InitStageIs(x, n);
    StageSends(CountsAsDone, d, all[n], all[n + 1..]);
  }

  /**
   If nothing fails and empty stages count as done, twelve events are enough for
   Init to send all its commands, and then it waits for good.
   */
  lemma {:induction false} InitGetsToWait(x: Settings) returns (events: seq<LoraEvent>)
    ensures NoneFails(events) && |events| <= 12
    ensures var d := LoraRun(CountsAsDone, Constructed(x), events); Blocked(d) && d.trace == InitCommands(x, 5)
  {
    var d := LoraStep(CountsAsDone, Constructed(x), Advanced);
    assert AtStage(d, x, d.running.value, 0);
    var rest := GetsOn(d, x, 0);
    events := [Advanced] + rest;
    assert events[1..] == rest;
    InitSends(CountsAsDone, x, events);
  }

  /* ---- Failures ---- */

  function Failed(results: seq<bool>): nat {
    if results == [] then 0 else Failed(results[..|results| - 1]) + if results[|results| - 1] then 0 else 1
  }

  lemma {:induction false} OneMoreResult(results: seq<bool>, ok: bool)
    ensures Failed(results + [ok]) == Failed(results) + if ok then 0 else 1
  {
    assert (results + [ok])[..|results|] == results;
  }

  lemma {:induction false} StepFailures(d: Driver, e: LoraEvent)
    requires DriverOk(d) && Failed(d.outcomes) == Failed(d.answers)
    ensures var t := LoraStep(CountsAsDone, d, e); Failed(t.outcomes) == Failed(t.answers)
  {
    match e
    case Answered(ok) =>
      OneMoreResult(d.answers, ok);
      OneMoreResult(d.outcomes, false);
    case Advanced =>
      OneMoreResult(d.outcomes, true);
      if d.running.Some? && d.running.value.wait.Ready? && d.running.value.rest != [] {
        StageFailures(d, d.running.value.rest[0], d.running.value.rest[1..]);
      }
    case Pushed(_) =>
  }

  lemma {:induction false} StageFailures(d: Driver, stage: Stage, rest: seq<Stage>)
    ensures var t := RunStage(CountsAsDone, d, stage, rest); t.outcomes == d.outcomes && t.answers == d.answers
  {
  }

  /** If empty stages count as done, as many jobs have failed as requests: each failed request ends one job. */
  lemma {:induction false} FailuresMatch(x: Settings, events: seq<LoraEvent>)
    ensures var d := LoraRun(CountsAsDone, Constructed(x), events); Failed(d.outcomes) == Failed(d.answers)
  {
    if events != [] {
      var before := events[..|events| - 1];
      FailuresMatch(x, before);
      LoraRunOk(CountsAsDone, Constructed(x), before);
      LastOfRun(CountsAsDone, Constructed(x), events);
      StepFailures(LoraRun(CountsAsDone, Constructed(x), before), events[|events| - 1]);
    }
  }
}
