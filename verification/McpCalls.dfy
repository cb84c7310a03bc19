/**
 The fail-closed MCP client as a state machine over any number of callers and
 call workers.

 One step is one poll segment: what a caller or worker does between two awaits,
 with the `biased` order of its `select!` respected (a cancellation is seen
 before a deadline, a deadline before progress). The atomics a segment touches
 are not interleaved with other segments.
 */
module McpCalls {
  import opened Histories

  datatype ServiceState = Open | Closing | Closed | CloseFailed

  datatype Result =
    | Success
    | ToolError
    | ServiceError
    | UnexpectedResponse
    | FailClosed
    | Timeout
    | Cancelled
    | CleanupTimeout
    | CleanupFailed

  /** Where a worker, or a caller that closes the service itself, is suspended. */
  datatype Phase =
    | Starting
    | Establishing
    | Awaiting
    | Notifying(why: Result)
    | Locking(why: Result)
    | ClosingService(why: Result)
    | AwaitingClose(why: Result)
    | Finished(result: Result)

  datatype Caller = Waiting | Returned | Gone

  /** `worker` tells a spawned call task from a caller running `fail_close_native_mcp`. */
  datatype Task = Task(worker: bool, phase: Phase, caller: Caller)

  datatype Action =
    | Sent(task: nat)
    | Succeeded(task: nat)
    | TimedOut(task: nat)
    | DroppedInFlight(task: nat)
    | Poison
    | Took
    | ClosedService

  type History = Log<Action>

  datatype State = State(
    poisoned: bool,
    cancelAll: bool,
    activeCalls: int,
    routingFailed: bool,
    serviceState: ServiceState,
    owned: bool,
    tasks: seq<Task>,
    log: History)

  function Start(): State { State(false, false, 0, false, Open, true, [], Empty) }

  /** What a poll of a task finds its awaited operation doing. */
  datatype Io = Quiet | Elapsed | Done(ok: bool, result: Result)

  datatype Event =
    | RoutingFails
    | Call(argumentsOk: bool)
    | Poll(task: nat, io: Io)
    | DropCaller(task: nat)
    | ReturnToCaller(task: nat)

  predicate Live(t: Task) { t.worker && !t.phase.Finished? }

  predicate Owns(t: Task) { t.phase.Locking? || t.phase.ClosingService? }

  function At(s: State, i: nat, phase: Phase): seq<Task>
    requires i < |s.tasks|
  {
    s.tasks[i := s.tasks[i].(phase := phase)]
  }

  /** The task ends; a worker's guard gives its place back. */
  function Finish(s: State, i: nat, result: Result, log: History): State
    requires i < |s.tasks|
  {
    s.(tasks := At(s, i, Finished(result)),
       activeCalls := if s.tasks[i].worker then s.activeCalls - 1 else s.activeCalls,
       log := log)
  }

  /** The compare-exchange of `fail_close_native_mcp`, on an already poisoned client. */
  function Contend(s: State, i: nat, why: Result): State
    requires i < |s.tasks|
  {
    match s.serviceState
    case Open => s.(serviceState := Closing, tasks := At(s, i, Locking(why)))
    case Closing => s.(tasks := At(s, i, AwaitingClose(why)))
    case Closed => Finish(s, i, why, s.log)
    case CloseFailed => Finish(s, i, CleanupFailed, s.log)
  }

  function Poisoned(s: State, log: History): State {
    s.(poisoned := true, cancelAll := true, log := Then(log, Poison))
  }

  /** A task whose request must not go on: poison, cancel everyone, then notify or close. */
  function Interrupted(s: State, i: nat, why: Result): State
    requires i < |s.tasks|
  {
    var log := if why.Timeout? then Then(s.log, TimedOut(i)) else s.log;
    if s.tasks[i].phase.Awaiting? then Poisoned(s, log).(tasks := At(s, i, Notifying(why)))
    else Contend(Poisoned(s, log), i, why)
  }

  function PollRequest(s: State, i: nat, io: Io): State
    requires i < |s.tasks|
  {
    if s.tasks[i].caller.Gone? || s.cancelAll then Interrupted(s, i, Cancelled)
    else if io.Elapsed? then Interrupted(s, i, Timeout)
    else if io.Quiet? then s
    else if s.tasks[i].phase.Establishing? then
      if io.ok then s.(tasks := At(s, i, Awaiting), log := Then(s.log, Sent(i)))
      else Finish(s, i, ServiceError, s.log)
    else if !io.ok then Finish(s, i, ServiceError, s.log)
    else if io.result.Success? then Finish(s, i, Success, Then(s.log, Succeeded(i)))
    else Finish(s, i, if io.result.ToolError? then ToolError else UnexpectedResponse, s.log)
  }

  function PollTask(s: State, i: nat, io: Io): State
    requires i < |s.tasks|
  {
    match s.tasks[i].phase
    case Starting =>
      if s.cancelAll then Finish(s, i, Cancelled, s.log) else s.(tasks := At(s, i, Establishing))
    case Establishing => PollRequest(s, i, io)
    case Awaiting => PollRequest(s, i, io)
    case Notifying(why) => if io.Quiet? then s else Contend(s, i, why)
    case Locking(why) =>
      if s.owned then s.(owned := false, tasks := At(s, i, ClosingService(why)), log := Then(s.log, Took))
      else Finish(s.(serviceState := CloseFailed), i, CleanupFailed, s.log)
    case ClosingService(why) =>
      if io.Quiet? then s
      else if io.Done? && io.ok then Finish(s.(serviceState := Closed), i, why, Then(s.log, ClosedService))
      else Finish(s.(serviceState := CloseFailed), i, if io.Done? then CleanupFailed else CleanupTimeout, s.log)
    case AwaitingClose(why) =>
      if s.serviceState.Closed? then Finish(s, i, why, s.log)
      else if s.serviceState.CloseFailed? then Finish(s, i, CleanupFailed, s.log)
      else if io.Elapsed? then Finish(s, i, CleanupTimeout, s.log)
      else s
    case Finished(_) => s
  }

  function OnCall(s: State, argumentsOk: bool): State {
    if s.routingFailed then
      var closing := Poisoned(s, s.log).(tasks := s.tasks + [Task(false, AwaitingClose(FailClosed), Waiting)]);
      Contend(closing, |s.tasks|, FailClosed)
    else if s.poisoned then s.(tasks := s.tasks + [Task(false, Finished(FailClosed), Returned)])
    else if !argumentsOk then s.(tasks := s.tasks + [Task(false, Finished(ToolError), Returned)])
    else s.(activeCalls := s.activeCalls + 1, tasks := s.tasks + [Task(true, Starting, Waiting)])
  }

  /** Dropping a call poisons the client; dropping a closing caller abandons its close. */
  function OnDrop(s: State, i: nat): State
    requires i < |s.tasks|
  {
    var task := s.tasks[i];
    if task.worker then
      Poisoned(s, Then(s.log, DroppedInFlight(i))).(tasks := s.tasks[i := task.(caller := Gone)])
    else s.(tasks := s.tasks[i := Task(false, Finished(Cancelled), Gone)])
  }

  predicate Enabled(s: State, e: Event) {
    match e
    case Poll(i, _) => i < |s.tasks|
    case DropCaller(i) => i < |s.tasks| && s.tasks[i].caller.Waiting?
    case ReturnToCaller(i) => i < |s.tasks| && s.tasks[i].caller.Waiting? && s.tasks[i].phase.Finished?
    case _ => true
  }

  function Step(s: State, e: Event): State
    requires Enabled(s, e)
  {
    match e
    case RoutingFails => s.(routingFailed := true)
    case Call(argumentsOk) => OnCall(s, argumentsOk)
    case Poll(i, io) => PollTask(s, i, io)
    case DropCaller(i) => OnDrop(s, i)
    case ReturnToCaller(i) => s.(tasks := s.tasks[i := s.tasks[i].(caller := Returned)])
  }

  predicate Feasible(s: State, events: seq<Event>)
    decreases |events|
  {
    events == [] || (Enabled(s, events[0]) && Feasible(Step(s, events[0]), events[1..]))
  }

  function Run(s: State, events: seq<Event>): State
    requires Feasible(s, events)
    decreases |events|
  {
    if events == [] then s else Run(Step(s, events[0]), events[1..])
  }

  datatype Answer = Idle | Failed | NotYet

  /** One look of `wait_for_idle` at the counters. */
  function LookForIdle(s: State): Answer {
    if s.activeCalls == 0 && (!s.poisoned || s.serviceState.Closed?) then Idle
    else if s.activeCalls == 0 && s.serviceState.CloseFailed? then Failed
    else NotYet
  }
}
