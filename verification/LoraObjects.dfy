/**
 The LR02 driver as an object, changed in place. Each method is proved to do what
 the driver's function of the same name does.
 */
module LoraObjects {
  import opened Wire
  import Model = LoraModel
  import opened LoraModel

  class DxSmartLr02LoraGateway {
    const policy: EmptyStage
    var atMode: bool
    var started: bool
    var initiated: bool
    var jobs: seq<Job>
    var outcomes: seq<bool>
    var running: Option<Running>
    var trace: seq<Command>
    var answers: seq<bool>

    constructor (policy: EmptyStage, settings: Settings)
      ensures View() == Constructed(settings) && this.policy == policy
    {
      this.policy := policy;
      atMode, started, initiated := false, false, false;
      jobs, outcomes, running, trace, answers := [], [], None, [], [];
      new;
      Init(settings);
    }

    function View(): Driver
      reads this
    {
      Driver(atMode, started, initiated, jobs, outcomes, running, trace, answers)
    }

    method Init(settings: Settings)
      modifies `jobs
      ensures jobs == old(jobs) + [Job.Init(settings)]
    {
      jobs := jobs + [Job.Init(settings)];
    }

    method Start()
      modifies `jobs
      ensures View() == Push(old(View()), Operation.Start)
    {
      jobs := jobs + [Public(Operation.Start)];
    }

    method Stop()
      modifies `jobs
      ensures View() == Push(old(View()), Operation.Stop)
    {
      jobs := jobs + [Public(Operation.Stop)];
    }

    method SetPowerSaveParam(psp: PowerSaveParam)
      modifies `jobs
      ensures View() == Push(old(View()), Operation.SetPowerSaveParam(psp))
    {
      jobs := jobs + [Public(Operation.SetPowerSaveParam(psp))];
    }

    method SetLoraGatewayAddress(address: nat)
      modifies `jobs
      ensures View() == Push(old(View()), SetAddress(address))
    {
      jobs := jobs + [Public(SetAddress(address))];
    }

    // A channel out of range yields no operation, and nothing is queued.
    method SetLoraGatewayChannel(channel: nat) returns (queued: bool)
      modifies `jobs
      ensures queued <==> channel <= 0x1E
      ensures View() == Push(old(View()), SetChannel(channel))
    {
      if channel > MAX_CHANNEL {
        return false;
      }
      jobs := jobs + [Public(SetChannel(channel))];
      queued := true;
    }

    method SetLoraGatewayCRCCheck(crcCheck: nat)
      modifies `jobs
      ensures View() == Push(old(View()), SetCrcCheck(crcCheck))
    {
      jobs := jobs + [Public(SetCrcCheck(crcCheck))];
    }

    method SetLoraGatewayIQSignalInversion(iqInversion: nat)
      modifies `jobs
      ensures View() == Push(old(View()), SetIqInversion(iqInversion))
    {
      jobs := jobs + [Public(SetIqInversion(iqInversion))];
    }

    // The toggle is handed out, and the flag set, only outside the AT mode.
    method EnterAtMode() returns (pipeline: Option<Command>)
      modifies `atMode
      ensures atMode && pipeline == if old(atMode) then None else Some(Toggle)
    {
      if !atMode {
        atMode := true;
        return Some(Toggle);
      }
      pipeline := None;
    }

    method ExitAtMode() returns (pipeline: Option<Command>)
      modifies `atMode
      ensures !atMode && pipeline == if old(atMode) then Some(Toggle) else None
    {
      if atMode {
        atMode := false;
        return Some(Toggle);
      }
      pipeline := None;
    }

    // The operation that a stage of Init starts is queued like any other.
    method StartQueued(op: Operation)
      modifies `jobs
      ensures View() == Push(old(View()), op)
    {
      match op
      case Start => Start();
      case Stop => Stop();
      case SetPowerSaveParam(psp) => SetPowerSaveParam(psp);
      case SetAddress(address) => SetLoraGatewayAddress(address);
      case SetChannel(channel) => var _ := SetLoraGatewayChannel(channel);
      case SetCrcCheck(crcCheck) => SetLoraGatewayCRCCheck(crcCheck);
      case SetIqInversion(iqInversion) => SetLoraGatewayIQSignalInversion(iqInversion);
    }

    // A stage that yields a command sends it; one that yields none is skipped, or fails.
    method RunPipeline(pipeline: Option<Command>, rest: seq<Stage>)
      modifies `trace, `running, `outcomes
      ensures View() == if pipeline.Some? then Issue(old(View()), pipeline.value, rest) else Skip(policy, old(View()), rest)
    {
      if pipeline.Some? {
        trace, running := trace + [pipeline.value], Some(Running(rest, ForAnswer));
      } else if policy.CountsAsDone? {
        running := Some(Running(rest, Ready));
      } else {
        running, outcomes := None, outcomes + [false];
      }
    }

    method RunStage(stage: Stage, rest: seq<Stage>)
      modifies `atMode, `started, `initiated, `jobs, `outcomes, `running, `trace
      ensures View() == Model.RunStage(policy, old(View()), stage, rest)
    {
      match stage
      case EnterAtMode =>
        var pipeline := EnterAtMode();
        RunPipeline(pipeline, rest);
      case ExitAtMode =>
        var pipeline := ExitAtMode();
        RunPipeline(pipeline, rest);
      case Request(command) => RunPipeline(Some(command), rest);
      case Nothing => RunPipeline(None, rest);
      case Queued(op) =>
        var job := |jobs|;
        StartQueued(op);
        if |jobs| > job {
          running := Some(Running(rest, ForJob(job)));
        } else {
          RunPipeline(None, rest);
        }
      case SetStarted =>
        started, running := true, Some(Running(rest, Ready));
      case SetInitiated =>
        initiated, running := true, Some(Running(rest, Ready));
      case NotifyNow =>
        running := Some(Running(rest, Ready));
    }

    method Advance()
      modifies `atMode, `started, `initiated, `jobs, `outcomes, `running, `trace
      ensures View() == Model.Advance(policy, old(View()))
    {
      match running
      case None =>
        if |outcomes| < |jobs| {
          running := Some(Running(StagesOf(jobs[|outcomes|], started), Ready));
        }
      case Some(r) =>
        match r.wait
        case ForAnswer =>
        case ForJob(job) =>
          if job < |outcomes| {
            if outcomes[job] {
              running := Some(Running(r.rest, Ready));
            } else {
              running, outcomes := None, outcomes + [false];
            }
          }
        case Ready =>
          if r.rest == [] {
            running, outcomes := None, outcomes + [true];
          } else {
            RunStage(r.rest[0], r.rest[1..]);
          }
    }

    method Answer(ok: bool)
      modifies `outcomes, `running, `answers
      ensures View() == Model.Answer(old(View()), ok)
    {
      if running.Some? && running.value.wait.ForAnswer? {
        answers := answers + [ok];
        if ok {
          running := Some(Running(running.value.rest, Ready));
        } else {
          running, outcomes := None, outcomes + [false];
        }
      }
    }

    method Handle(e: LoraEvent)
      modifies this
      ensures View() == LoraStep(policy, old(View()), e)
    {
      match e
      case Pushed(op) => StartQueued(op);
      case Advanced => Advance();
      case Answered(ok) => Answer(ok);
    }

    /** Handling a list of events is a run: what is proved of runs holds of the object. */
    method HandleAll(events: seq<LoraEvent>)
      modifies this
      ensures View() == LoraRun(policy, old(View()), events)
    {
      for i := 0 to |events|
        invariant LoraRun(policy, View(), events[i..]) == LoraRun(policy, old(View()), events)
      {
        assert events[i..][1..] == events[i + 1..];
        Handle(events[i]);
      }
    }
  }
}
