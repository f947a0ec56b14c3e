/**
 The LR02 driver: jobs queued one behind the other, each a pipeline of stages
 that talk to the module with AT commands.

 The queue and the pipelines belong to Aether. What is taken from them: jobs run
 one at a time, in the order they were pushed; a pipeline stops at the first
 stage that fails, and its job fails with it; a stage that starts another
 operation waits until that operation is over. Whether a stage that yields no
 action counts as done or as failed is a parameter.
 */
module LoraModel {
  import opened Wire

  datatype EmptyStage = CountsAsDone | CountsAsFailed

  datatype PowerSaveParam = PowerSaveParam(mode: nat, level: nat, power: nat, bandWidth: nat, codingRate: nat,
                                           spreadingFactor: nat)

  // The serial settings that have a command, and the rest of what the driver is constructed with.
  datatype Settings = Settings(baud: Option<nat>, parity: Option<nat>, stopBits: Option<nat>, psp: PowerSaveParam,
                               address: nat, channel: nat, crcCheck: nat, iqInversion: nat)

  const BAND_WIDTH_125K := 7
  const MAX_CHANNEL := 0x1E

  // What is sent to the module; `Toggle` is "+++", which enters and leaves the AT mode.
  datatype Command =
    | Toggle
    | At
    | Reset
    | Mode(value: nat)
    | Level(value: nat)
    | Power(value: nat)
    | BandWidth(value: nat)
    | CodingRate(value: nat)
    | SpreadingFactor(value: nat)
    | Mac(value: nat)
    | Channel(value: nat)
    | Crc(value: nat)
    | Iq(value: nat)
    | Baud(value: nat)
    | Parity(value: nat)
    | StopBits(value: nat)

  datatype Operation =
    | Start
    | Stop
    | SetPowerSaveParam(psp: PowerSaveParam)
    | SetAddress(address: nat)
    | SetChannel(channel: nat)
    | SetCrcCheck(crcCheck: nat)
    | SetIqInversion(iqInversion: nat)

  datatype Job = Public(op: Operation) | Init(settings: Settings)

  datatype Stage =
    | EnterAtMode
    | ExitAtMode
    | Request(command: Command)
    | Nothing
    | Queued(op: Operation)
    | SetStarted
    | SetInitiated
    | NotifyNow

  // The stages between entering and leaving the AT mode.
  function Body(op: Operation): seq<Stage> {
    match op
    case Start => []
    case Stop => [Request(Reset)]
    case SetPowerSaveParam(psp) =>
      [Request(Mode(psp.mode)),
       Request(Level(psp.level)),
       Request(Power(psp.power)),
       if psp.bandWidth != BAND_WIDTH_125K then Nothing else Request(BandWidth(0)),
       Request(CodingRate(psp.codingRate)),
       Request(SpreadingFactor(psp.spreadingFactor))]
    case SetAddress(address) => [Request(Mac(address))]
    case SetChannel(channel) => [Request(Channel(channel))]
    case SetCrcCheck(value) => [Request(Crc(value))]
    case SetIqInversion(value) => [Request(Iq(value))]
  }

  function IfKnown(setting: Option<nat>, command: nat -> Command): Stage {
    if setting.Some? then Request(command(setting.value)) else Nothing
  }

  function InitStages(x: Settings): seq<Stage> {
    [EnterAtMode,
     Request(At),
     IfKnown(x.baud, (v: nat) => Baud(v)),
     IfKnown(x.parity, (v: nat) => Parity(v)),
     IfKnown(x.stopBits, (v: nat) => StopBits(v)),
     Queued(SetPowerSaveParam(x.psp)),
     Queued(SetAddress(x.address)),
     Queued(SetChannel(x.channel)),
     Queued(SetCrcCheck(x.crcCheck)),
     Queued(SetIqInversion(x.iqInversion)),
     ExitAtMode,
     SetInitiated]
  }

  // The pipeline of a job, built when the job begins.
  function StagesOf(job: Job, started: bool): seq<Stage> {
    match job
    case Init(settings) => InitStages(settings)
    case Public(op) =>
      if op.Start? && started then [NotifyNow]
      else [EnterAtMode] + Body(op) + [ExitAtMode] + (if op.Start? then [SetStarted] else [])
  }

  datatype Wait = Ready | ForAnswer | ForJob(job: nat)
  datatype Running = Running(rest: seq<Stage>, wait: Wait)

  // All jobs ever pushed, the outcomes of those that are over, and the job that runs now, if one does.
  datatype Driver = Driver(
    atMode: bool,
    started: bool,
    initiated: bool,
    jobs: seq<Job>,
    outcomes: seq<bool>,
    running: Option<Running>,
    trace: seq<Command>,
    answers: seq<bool>)

  // The constructor pushes the Init job.
  function Constructed(settings: Settings): Driver {
    Driver(false, false, false, [Init(settings)], [], None, [], [])
  }

  /** Is the operation one that is pushed at all? */
  predicate Accepted(op: Operation) {
    op.SetChannel? ==> op.channel <= MAX_CHANNEL
  }

  function Push(d: Driver, op: Operation): Driver {
    if Accepted(op) then d.(jobs := d.jobs + [Public(op)]) else d
  }

  function Finish(d: Driver, ok: bool): Driver {
    d.(running := None, outcomes := d.outcomes + [ok])
  }

  function Continue(d: Driver, rest: seq<Stage>): Driver {
    d.(running := Some(Running(rest, Ready)))
  }

  function Skip(policy: EmptyStage, d: Driver, rest: seq<Stage>): Driver {
    if policy.CountsAsDone? then Continue(d, rest) else Finish(d, false)
  }

  function Issue(d: Driver, command: Command, rest: seq<Stage>): Driver {
    d.(trace := d.trace + [command], running := Some(Running(rest, ForAnswer)))
  }

  function RunStage(policy: EmptyStage, d: Driver, stage: Stage, rest: seq<Stage>): Driver {
    match stage
    case EnterAtMode => if !d.atMode then Issue(d.(atMode := true), Toggle, rest) else Skip(policy, d, rest)
    case ExitAtMode => if d.atMode then Issue(d.(atMode := false), Toggle, rest) else Skip(policy, d, rest)
    case Request(command) => Issue(d, command, rest)
    case Nothing => Skip(policy, d, rest)
    case Queued(op) =>
      if Accepted(op) then Push(d, op).(running := Some(Running(rest, ForJob(|d.jobs|))))
      else Skip(policy, d, rest)
    case SetStarted => Continue(d.(started := true), rest)
    case SetInitiated => Continue(d.(initiated := true), rest)
    case NotifyNow => Continue(d, rest)
  }

  // The queue begins the next job, or the running job goes on.
  function Advance(policy: EmptyStage, d: Driver): Driver {
    match d.running
    case None =>
      if |d.outcomes| < |d.jobs| then Continue(d, StagesOf(d.jobs[|d.outcomes|], d.started)) else d
    case Some(r) =>
      match r.wait
      case ForAnswer => d
      case ForJob(j) =>
        if j < |d.outcomes| then (if d.outcomes[j] then Continue(d, r.rest) else Finish(d, false)) else d
      case Ready =>
        if r.rest == [] then Finish(d, true) else RunStage(policy, d, r.rest[0], r.rest[1..])
  }

  predicate Asking(d: Driver) {
    d.running.Some? && d.running.value.wait.ForAnswer?
  }

  // The module answers the last command as expected, or does not.
  function Answer(d: Driver, ok: bool): Driver {
    if Asking(d) then
      var d1 := d.(answers := d.answers + [ok]);
      if ok then Continue(d1, d.running.value.rest) else Finish(d1, false)
    else d
  }

  datatype LoraEvent = Pushed(op: Operation) | Advanced | Answered(ok: bool)

  function LoraStep(policy: EmptyStage, d: Driver, e: LoraEvent): Driver {
    match e
    case Pushed(op) => Push(d, op)
    case Advanced => Advance(policy, d)
    case Answered(ok) => Answer(d, ok)
  }

  function LoraRun(policy: EmptyStage, d: Driver, events: seq<LoraEvent>): Driver
    decreases |events|
  {
    if events == [] then d else LoraRun(policy, LoraStep(policy, d, events[0]), events[1..])
  }
}
