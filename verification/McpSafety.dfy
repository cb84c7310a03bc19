/**
 What every run of the MCP client keeps, for any number of callers and workers:
 once poisoned it stays poisoned and silent, its service is taken and closed at
 most once, and its call count is the number of live workers.
 */
module McpSafety {
  import opened Histories
  import opened McpCalls

  // ---- Counting tasks ------------------------------------------------------

  ghost function LiveCount(tasks: seq<Task>): nat {
    if tasks == [] then 0 else LiveCount(tasks[..|tasks| - 1]) + One(Live(tasks[|tasks| - 1]))
  }

  ghost function OwnerCount(tasks: seq<Task>): nat {
    if tasks == [] then 0 else OwnerCount(tasks[..|tasks| - 1]) + One(Owns(tasks[|tasks| - 1]))
  }

  lemma {:induction false} CountUpdate(tasks: seq<Task>, i: nat, t: Task)
    requires i < |tasks|
    ensures LiveCount(tasks[i := t]) == LiveCount(tasks) - One(Live(tasks[i])) + One(Live(t))
    ensures OwnerCount(tasks[i := t]) == OwnerCount(tasks) - One(Owns(tasks[i])) + One(Owns(t))
  {
    var last := |tasks| - 1;
    var after := tasks[i := t];
    if i == last {
      assert after[..last] == tasks[..last];
    } else {
      CountUpdate(tasks[..last], i, t);
      assert after[..last] == tasks[..last][i := t];
    }
  }

  lemma {:induction false} OwnerCounted(tasks: seq<Task>, i: nat)
    requires i < |tasks| && Owns(tasks[i])
    ensures OwnerCount(tasks) >= 1
  {
    var last := |tasks| - 1;
    if i < last {
      OwnerCounted(tasks[..last], i);
    }
  }

  lemma {:induction false} NoneLive(tasks: seq<Task>)
    requires LiveCount(tasks) == 0
    ensures forall i | 0 <= i < |tasks| :: !Live(tasks[i])
  {
    if tasks != [] {
      var last := |tasks| - 1;
      NoneLive(tasks[..last]);
      assert forall i | 0 <= i < last :: tasks[i] == tasks[..last][i];
    }
  }

  // ---- Reading the history -------------------------------------------------

  ghost predicate EverPoisoned(log: History) {
    log.Then? && (log.last.Poison? || EverPoisoned(log.before))
  }

  /** No request is sent and no success reported once the client is poisoned. */
  ghost predicate SilentAfterPoison(log: History) {
    match log
    case Empty => true
    case Then(before, a) => SilentAfterPoison(before) && (a.Sent? || a.Succeeded? ==> !EverPoisoned(before))
  }

  ghost function Takes(log: History): nat {
    match log
    case Empty => 0
    case Then(before, a) => Takes(before) + One(a.Took?)
  }

  ghost function Closes(log: History): nat {
    match log
    case Empty => 0
    case Then(before, a) => Closes(before) + One(a.ClosedService?)
  }

  // ---- The invariant -------------------------------------------------------

  ghost predicate LogOk(s: State) {
    && s.poisoned == s.cancelAll == EverPoisoned(s.log)
    && SilentAfterPoison(s.log)
    && Takes(s.log) == One(!s.owned)
    && Closes(s.log) == One(s.serviceState.Closed?)
  }

  ghost predicate CountsOk(s: State) {
    && s.activeCalls == LiveCount(s.tasks)
    && OwnerCount(s.tasks) <= 1
    && (OwnerCount(s.tasks) == 1 ==> s.serviceState.Closing?)
    && (s.serviceState.Open? ==> s.owned)
    && (!s.serviceState.Open? ==> s.poisoned)
    && (s.serviceState.Closed? || s.serviceState.CloseFailed? ==> !s.owned)
  }

  /** A task past its request is on a poisoned client; the one that locks finds the service. */
  ghost predicate TaskOk(s: State, t: Task) {
    && (t.phase.Locking? ==> s.owned)
    && (t.phase.ClosingService? ==> !s.owned)
    && (ClosesFor(t.phase) ==> s.poisoned)
    && (!t.worker ==> !t.phase.Starting? && !t.phase.Establishing? && !t.phase.Awaiting?)
    && (t.caller.Gone? && t.worker ==> s.poisoned)
    && (t.phase.Finished? && t.phase.result.Timeout? ==> s.serviceState.Closed?)
    && (t.phase.Finished? && t.phase.result.Success? ==> t.worker)
    && (ClosesFor(t.phase) ==> !Why(t.phase).Success?)
  }

  predicate ClosesFor(p: Phase) { p.Notifying? || p.Locking? || p.ClosingService? || p.AwaitingClose? }

  function Why(p: Phase): Result
    requires ClosesFor(p)
  {
    p.why
  }

  ghost predicate TasksOk(s: State) {
    forall i | 0 <= i < |s.tasks| :: TaskOk(s, s.tasks[i])
  }

  ghost predicate Inv(s: State) {
    LogOk(s) && CountsOk(s) && TasksOk(s)
  }

  // ---- One step ------------------------------------------------------------

  /** What a segment of task `i` may do to the rest of the client. */
  ghost predicate Touches(s: State, i: nat, t: State)
    requires i < |s.tasks|
  {
    && |t.tasks| == |s.tasks|
    && t.tasks == s.tasks[i := t.tasks[i]]
    && (s.poisoned ==> t.poisoned)
    && (s.serviceState.Closed? ==> t.serviceState.Closed?)
    && (t.owned == s.owned || (Owns(s.tasks[i]) && !t.owned))
  }

  /** Reassembles the invariant after a segment of task `i`. */
  lemma TouchKeeps(s: State, i: nat, t: State)
    requires Inv(s) && i < |s.tasks| && Touches(s, i, t) && LogOk(t)
    requires TaskOk(t, t.tasks[i])
    requires t.activeCalls == s.activeCalls - One(Live(s.tasks[i])) + One(Live(t.tasks[i]))
    requires OwnerCount(s.tasks) - One(Owns(s.tasks[i])) + One(Owns(t.tasks[i])) <= 1
    requires OwnerCount(s.tasks) - One(Owns(s.tasks[i])) + One(Owns(t.tasks[i])) == 1 ==> t.serviceState.Closing?
    requires t.serviceState.Open? ==> t.owned
    requires !t.serviceState.Open? ==> t.poisoned
    requires t.serviceState.Closed? || t.serviceState.CloseFailed? ==> !t.owned
    ensures Inv(t)
  {
    CountUpdate(s.tasks, i, t.tasks[i]);
    forall j | 0 <= j < |t.tasks| ensures TaskOk(t, t.tasks[j]) {
      if j != i {
        assert TaskOk(s, s.tasks[j]);
        if t.owned != s.owned && s.tasks[j].phase.Locking? {
          TwoOwners(s.tasks, i, j);
        }
      }
    }
  }

  lemma {:induction false} TwoOwners(tasks: seq<Task>, i: nat, j: nat)
    requires i < |tasks| && j < |tasks| && i != j && Owns(tasks[i]) && Owns(tasks[j])
    ensures OwnerCount(tasks) >= 2
  {
    var last := |tasks| - 1;
    var fewer := tasks[..last];
    if i == last {
      OwnerCounted(fewer, j);
    } else if j == last {
      OwnerCounted(fewer, i);
    } else {
      TwoOwners(fewer, i, j);
    }
  }

  lemma FinishKeeps(s: State, i: nat, result: Result, log: History)
    requires Inv(s) && i < |s.tasks| && !s.tasks[i].phase.Finished? && !Owns(s.tasks[i])
    requires log == s.log || (log == Then(s.log, Succeeded(i)) && !s.poisoned)
    requires (result.Timeout? ==> s.serviceState.Closed?) && (result.Success? ==> s.tasks[i].worker)
    ensures Inv(Finish(s, i, result, log))
  {
    assert TaskOk(s, s.tasks[i]);
    TouchKeeps(s, i, Finish(s, i, result, log));
  }

  lemma ContendKeeps(s: State, i: nat, why: Result)
    requires Inv(s) && i < |s.tasks| && s.poisoned && !s.tasks[i].phase.Finished? && !Owns(s.tasks[i])
    requires !why.Success?
    ensures Inv(Contend(s, i, why))
  {
    assert TaskOk(s, s.tasks[i]);
    if s.serviceState.Closed? {
      FinishKeeps(s, i, why, s.log);
    } else if s.serviceState.CloseFailed? {
      FinishKeeps(s, i, CleanupFailed, s.log);
    } else {
      TouchKeeps(s, i, Contend(s, i, why));
    }
  }

  lemma InterruptedKeeps(s: State, i: nat, why: Result)
    requires Inv(s) && i < |s.tasks| && (s.tasks[i].phase.Establishing? || s.tasks[i].phase.Awaiting?)
    requires !why.Success?
    ensures Inv(Interrupted(s, i, why)) && Interrupted(s, i, why).poisoned
  {
    var log := if why.Timeout? then Then(s.log, TimedOut(i)) else s.log;
    var p := Poisoned(s, log);
    assert TaskOk(s, s.tasks[i]);
    if s.tasks[i].phase.Awaiting? {
      TouchKeeps(p, i, p.(tasks := At(s, i, Notifying(why))));
    } else {
      ContendKeeps(p, i, why);
    }
  }

  lemma RequestKeeps(s: State, i: nat, io: Io)
    requires Inv(s) && i < |s.tasks| && (s.tasks[i].phase.Establishing? || s.tasks[i].phase.Awaiting?)
    ensures Inv(PollRequest(s, i, io))
  {
    assert TaskOk(s, s.tasks[i]);
    if s.tasks[i].caller.Gone? || s.cancelAll {
      InterruptedKeeps(s, i, Cancelled);
    } else if io.Elapsed? {
      InterruptedKeeps(s, i, Timeout);
    } else if io.Done? && s.tasks[i].phase.Establishing? && io.ok {
      TouchKeeps(s, i, PollRequest(s, i, io));
    } else if io.Done? {
      FinishKeeps(s, i, ServiceError, s.log);
      if !s.poisoned {
        FinishKeeps(s, i, Success, Then(s.log, Succeeded(i)));
      }
      FinishKeeps(s, i, ToolError, s.log);
      FinishKeeps(s, i, UnexpectedResponse, s.log);
    }
  }

  lemma PollKeeps(s: State, i: nat, io: Io)
    requires Inv(s) && i < |s.tasks|
    ensures Inv(PollTask(s, i, io))
  {
    assert TaskOk(s, s.tasks[i]);
    match s.tasks[i].phase
    case Starting =>
      if s.cancelAll {
        FinishKeeps(s, i, Cancelled, s.log);
      } else {
        TouchKeeps(s, i, s.(tasks := At(s, i, Establishing)));
      }
    case Establishing => RequestKeeps(s, i, io);
    case Awaiting => RequestKeeps(s, i, io);
    case Notifying(why) => ContendKeeps(s, i, why);
    case Locking(_) =>
      OwnerCounted(s.tasks, i);
      TouchKeeps(s, i, PollTask(s, i, io));
    case ClosingService(_) =>
      OwnerCounted(s.tasks, i);
      TouchKeeps(s, i, PollTask(s, i, io));
    case AwaitingClose(why) =>
      if s.serviceState.Closed? {
        FinishKeeps(s, i, why, s.log);
      }
      FinishKeeps(s, i, CleanupFailed, s.log);
      FinishKeeps(s, i, CleanupTimeout, s.log);
    case Finished(_) =>
  }

  lemma AppendKeeps(s: State, task: Task, activeCalls: int)
    requires Inv(s) && !Owns(task) && activeCalls == s.activeCalls + One(Live(task))
    requires TaskOk(s, task)
    ensures Inv(s.(tasks := s.tasks + [task], activeCalls := activeCalls))
  {
    var t := s.(tasks := s.tasks + [task], activeCalls := activeCalls);
    forall i | 0 <= i < |t.tasks| ensures TaskOk(t, t.tasks[i]) {
      if i < |s.tasks| {
        assert TaskOk(s, s.tasks[i]);
      }
    }
  }

  lemma CallKeeps(s: State, argumentsOk: bool)
    requires Inv(s)
    ensures Inv(OnCall(s, argumentsOk))
  {
    if s.routingFailed {
      var p := Poisoned(s, s.log);
      var closing := Task(false, AwaitingClose(FailClosed), Waiting);
      AppendKeeps(p, closing, p.activeCalls);
      ContendKeeps(p.(tasks := p.tasks + [closing]), |s.tasks|, FailClosed);
    } else if s.poisoned {
      AppendKeeps(s, Task(false, Finished(FailClosed), Returned), s.activeCalls);
    } else if !argumentsOk {
      AppendKeeps(s, Task(false, Finished(ToolError), Returned), s.activeCalls);
    } else {
      AppendKeeps(s, Task(true, Starting, Waiting), s.activeCalls + 1);
    }
  }

  lemma DropKeeps(s: State, i: nat)
    requires Inv(s) && i < |s.tasks| && s.tasks[i].caller.Waiting?
    ensures Inv(OnDrop(s, i))
  {
    assert TaskOk(s, s.tasks[i]);
    if s.tasks[i].worker {
      var log := Then(s.log, DroppedInFlight(i));
      TouchKeeps(Poisoned(s, log), i, OnDrop(s, i));
    } else {
      if Owns(s.tasks[i]) {
        OwnerCounted(s.tasks, i);
      }
      TouchKeeps(s, i, OnDrop(s, i));
    }
  }

  lemma StepKeeps(s: State, e: Event)
    requires Inv(s) && Enabled(s, e)
    ensures Inv(Step(s, e))
  {
    match e
    case RoutingFails =>
      assert forall t :: TaskOk(s, t) ==> TaskOk(s.(routingFailed := true), t);
    case Call(argumentsOk) => CallKeeps(s, argumentsOk);
    case Poll(i, io) => PollKeeps(s, i, io);
    case DropCaller(i) => DropKeeps(s, i);
    case ReturnToCaller(i) =>
      assert TaskOk(s, s.tasks[i]);
      TouchKeeps(s, i, Step(s, e));
  }

  // ---- Every run -----------------------------------------------------------

  lemma {:induction false} RunKeeps(s: State, events: seq<Event>)
    requires Inv(s) && Feasible(s, events)
    ensures Inv(Run(s, events))
    ensures s.poisoned ==> Run(s, events).poisoned
    decreases |events|
  {
    if events != [] {
      StepKeeps(s, events[0]);
      RunKeeps(Step(s, events[0]), events[1..]);
    }
  }

  ghost predicate Happens(events: seq<Event>, s: State) {
    Feasible(Start(), events) && s == Run(Start(), events)
  }

  lemma {:induction false} SilentEarlier(early: History, late: History)
    requires SilentAfterPoison(late) && Earlier(early, late)
    ensures SilentAfterPoison(early)
  {
    if early != late {
      SilentEarlier(early, late.before);
    }
  }

  /** A poisoned client stays poisoned and cancelled, and from then on sends and reports nothing. */
  lemma FailsClosed(events: seq<Event>, s: State, more: seq<Event>)
    requires Happens(events, s) && s.poisoned && Feasible(s, more)
    ensures Run(s, more).poisoned && Run(s, more).cancelAll
    ensures forall before, a ::
              Earlier(Then(before, a), Run(s, more).log) && EverPoisoned(before) ==> !a.Sent? && !a.Succeeded?
  {
    RunKeeps(Start(), events);
    RunKeeps(s, more);
    var t := Run(s, more);
    forall before, a | Earlier(Then(before, a), t.log) && EverPoisoned(before) ensures !a.Sent? && !a.Succeeded? {
      SilentEarlier(Then(before, a), t.log);
    }
  }

  /** A call ends without anyone knowing whether it took effect. */
  predicate Ambiguous(s: State, e: Event)
    requires Enabled(s, e)
  {
    (e.DropCaller? && s.tasks[e.task].worker) ||
    (e.Poll? && e.io.Elapsed? && (s.tasks[e.task].phase.Establishing? || s.tasks[e.task].phase.Awaiting?))
  }

  /** `t` is `s` after the event. */
  ghost predicate Follows(s: State, e: Event, t: State) { Enabled(s, e) && t == Step(s, e) }

  /** Poisoned, everyone told to cancel, and the history says so. */
  ghost predicate Shut(s: State) { s.poisoned && s.cancelAll && EverPoisoned(s.log) }

  /** Between the two moments no request was sent and no success reported. */
  ghost predicate NothingAfter(early: History, late: History) {
    forall before, a :: Earlier(early, before) && Earlier(Then(before, a), late) ==> !a.Sent? && !a.Succeeded?
  }

  /**
   A call that times out or is dropped in flight poisons and cancels in that very segment,
   whatever follows keeps it so, and no worker sends or reports success in any later segment.
   */
  lemma AmbiguityIsFinal(events: seq<Event>, s: State, e: Event, t: State, more: seq<Event>)
    requires Happens(events, s) && Follows(s, e, t) && Ambiguous(s, e) && Feasible(t, more)
    ensures Shut(t) && Shut(Run(t, more))
    ensures NothingAfter(t.log, Run(t, more).log)
  {
    RunKeeps(Start(), events);
    StepKeeps(s, e);
    if e.Poll? {
      InterruptedKeeps(s, e.task, Timeout);
      InterruptedKeeps(s, e.task, Cancelled);
    }
    RunKeeps(t, more);
    forall before, a | Earlier(t.log, before) && Earlier(Then(before, a), Run(t, more).log)
      ensures !a.Sent? && !a.Succeeded?
    {
      PoisonedEarlier(t.log, before);
      SilentEarlier(Then(before, a), Run(t, more).log);
    }
  }

  lemma {:induction false} PoisonedEarlier(early: History, late: History)
    requires EverPoisoned(early) && Earlier(early, late)
    ensures EverPoisoned(late)
  {
    if early != late {
      PoisonedEarlier(early, late.before);
    }
  }

  /** The service is taken at most once and closed at most once, and never closed without being taken. */
  lemma ClosesOnce(events: seq<Event>, s: State)
    requires Happens(events, s)
    ensures Closes(s.log) <= Takes(s.log) <= 1
    ensures forall i | 0 <= i < |s.tasks| && s.tasks[i].phase.Locking? :: s.owned
    ensures forall i, j | 0 <= i < j < |s.tasks| :: !(Owns(s.tasks[i]) && Owns(s.tasks[j]))
  {
    RunKeeps(Start(), events);
    forall i | 0 <= i < |s.tasks| && s.tasks[i].phase.Locking? ensures s.owned {
      assert TaskOk(s, s.tasks[i]);
    }
    forall i, j | 0 <= i < j < |s.tasks| && Owns(s.tasks[i]) ensures !Owns(s.tasks[j]) {
      if Owns(s.tasks[j]) {
        TwoOwners(s.tasks, i, j);
      }
    }
  }

  /** A call answers success only as a worker, and answers a timeout only once the service is closed. */
  lemma AnswersAreEarned(events: seq<Event>, s: State, i: nat)
    requires Happens(events, s) && i < |s.tasks| && s.tasks[i].phase.Finished?
    ensures s.tasks[i].phase.result.Success? ==> s.tasks[i].worker
    ensures s.tasks[i].phase.result.Timeout? ==> s.poisoned && s.serviceState.Closed? && Closes(s.log) == 1
  {
    RunKeeps(Start(), events);
    assert TaskOk(s, s.tasks[i]);
  }

  lemma ActiveCallsAreLive(events: seq<Event>, s: State)
    requires Happens(events, s)
    ensures s.activeCalls == LiveCount(s.tasks)
    ensures s.activeCalls == 0 <==> forall i | 0 <= i < |s.tasks| :: !Live(s.tasks[i])
  {
    RunKeeps(Start(), events);
    if s.activeCalls == 0 {
      NoneLive(s.tasks);
    } else {
      SomeLive(s.tasks);
    }
  }

  lemma {:induction false} SomeLive(tasks: seq<Task>)
    requires LiveCount(tasks) > 0
    ensures exists i | 0 <= i < |tasks| :: Live(tasks[i])
  {
    var last := |tasks| - 1;
    if !Live(tasks[last]) {
      SomeLive(tasks[..last]);
      var i :| 0 <= i < last && Live(tasks[..last][i]);
      assert Live(tasks[i]);
    }
  }

  /** An idle answer on a poisoned client means a closed service and no live worker. */
  lemma IdleMeansClosed(events: seq<Event>, s: State)
    requires Happens(events, s) && LookForIdle(s).Idle?
    ensures forall i | 0 <= i < |s.tasks| :: !Live(s.tasks[i])
    ensures s.poisoned ==> s.serviceState.Closed? && Closes(s.log) == 1 && !s.owned
    ensures !s.poisoned ==> s.serviceState.Open? && s.owned
  {
    RunKeeps(Start(), events);
    NoneLive(s.tasks);
  }
}
