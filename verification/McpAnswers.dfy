/** What a call of the MCP client answers, and when it asks, gives up and closes. */
module McpAnswers {
  import opened Histories
  import opened McpCalls
  import opened McpSafety

  // ---- Requests and successes in the history -------------------------------

  ghost function Sends(log: History, i: nat): nat {
    match log
    case Empty => 0
    case Then(before, a) => Sends(before, i) + One(a == Sent(i))
  }

  ghost function Successes(log: History, i: nat): nat {
    match log
    case Empty => 0
    case Then(before, a) => Successes(before, i) + One(a == Succeeded(i))
  }

  /** The request of this call is on its way, or was answered. */
  predicate Asked(t: Task) {
    || t.phase.Awaiting?
    || t.phase.Notifying?
    || (t.worker && t.phase.Finished? &&
        (t.phase.result.Success? || t.phase.result.ToolError? || t.phase.result.UnexpectedResponse?))
  }

  predicate GivesUp(why: Result) { why.Cancelled? || why.Timeout? || why.FailClosed? }

  ghost predicate Booked(s: State, i: nat)
    requires i < |s.tasks|
  {
    var t := s.tasks[i];
    && Sends(s.log, i) <= 1
    && (t.phase.Starting? || t.phase.Establishing? || !t.worker ==> Sends(s.log, i) == 0)
    && (Asked(t) ==> Sends(s.log, i) == 1)
    && Successes(s.log, i) == One(t.phase == Finished(Success))
    && (ClosesFor(t.phase) ==> GivesUp(Why(t.phase)))
    && (!t.worker && t.phase.Finished? ==> !t.phase.result.Success?)
    && (t.phase.Notifying? ==> t.worker)
  }

  /** Every task is booked, and the history names no task to come. */
  ghost predicate Books(s: State) {
    && (forall i | 0 <= i < |s.tasks| :: Booked(s, i))
    && forall i | |s.tasks| <= i :: Sends(s.log, i) == 0 && Successes(s.log, i) == 0
  }

  /** The segment leaves the other tasks alone, and who task `i` belongs to. */
  ghost predicate Only(s: State, i: nat, t: State)
    requires i < |s.tasks|
  {
    && |t.tasks| == |s.tasks|
    && (forall j | 0 <= j < |s.tasks| && j != i :: t.tasks[j] == s.tasks[j])
    && t.tasks[i].worker == s.tasks[i].worker
  }

  /** A segment that names no other task leaves the others' books alone. */
  lemma OthersBooked(s: State, i: nat, t: State)
    requires Books(s) && i < |s.tasks| && Only(s, i, t)
    requires forall j: nat | j != i :: Sends(t.log, j) == Sends(s.log, j) && Successes(t.log, j) == Successes(s.log, j)
    requires Booked(t, i)
    ensures Books(t)
  {
    forall j | 0 <= j < |t.tasks| && j != i ensures Booked(t, j) {
      assert Booked(s, j);
    }
  }

  /** A segment that only moves task `i` on to a phase that its books allow. */
  lemma MovedBooks(s: State, i: nat, t: State)
    requires Books(s) && i < |s.tasks| && Only(s, i, t)
    requires t.log == s.log && Booked(t, i)
    ensures Books(t)
  {
    OthersBooked(s, i, t);
  }

  /** The request of task `i` is past: it closes, or it has ended without a response. */
  predicate Past(p: Phase) {
    (ClosesFor(p) && !p.Notifying? && GivesUp(Why(p))) ||
    (p.Finished? && !p.result.Success? && !p.result.ToolError? && !p.result.UnexpectedResponse?)
  }

  /** The segment only moves task `i`, past its request. */
  ghost predicate MovesPast(s: State, i: nat, t: State)
    requires i < |s.tasks|
  {
    Only(s, i, t) && Past(t.tasks[i].phase)
  }

  lemma PastBooks(s: State, i: nat, t: State)
    requires Books(s) && i < |s.tasks| && MovesPast(s, i, t)
    requires s.tasks[i].phase != Finished(Success)
    requires forall j: nat :: Sends(t.log, j) == Sends(s.log, j) && Successes(t.log, j) == Successes(s.log, j)
    ensures Books(t)
  {
    assert Booked(s, i);
    OthersBooked(s, i, t);
  }

  lemma AtMovesPast(s: State, i: nat, phase: Phase, t: State)
    requires i < |s.tasks| && t.tasks == At(s, i, phase) && Past(phase)
    ensures MovesPast(s, i, t)
  {
  }

  lemma ContendMoves(s: State, i: nat, why: Result)
    requires i < |s.tasks| && GivesUp(why)
    ensures MovesPast(s, i, Contend(s, i, why)) && Contend(s, i, why).log == s.log
  {
    var t := Contend(s, i, why);
    match s.serviceState
    case Open => AtMovesPast(s, i, Locking(why), t);
    case Closing => AtMovesPast(s, i, AwaitingClose(why), t);
    case Closed => AtMovesPast(s, i, Finished(why), t);
    case CloseFailed => AtMovesPast(s, i, Finished(CleanupFailed), t);
  }

  /** The history grew by nothing that is booked. */
  ghost predicate SameBooks(early: History, late: History) {
    || late == early
    || (late.Then? && late.before == early && !late.last.Sent? && !late.last.Succeeded?)
  }

  lemma CloserMoves(s: State, i: nat, io: Io)
    requires i < |s.tasks| && ClosesFor(s.tasks[i].phase) && GivesUp(Why(s.tasks[i].phase))
    requires !s.tasks[i].phase.Notifying?
    ensures MovesPast(s, i, PollTask(s, i, io)) && SameBooks(s.log, PollTask(s, i, io).log)
  {
    var t := PollTask(s, i, io);
    match s.tasks[i].phase
    case Locking(why) => AtMovesPast(s, i, if s.owned then ClosingService(why) else Finished(CleanupFailed), t);
    case ClosingService(why) =>
      if !io.Quiet? {
        var r := if io.Elapsed? then CleanupTimeout else if io.ok then why else CleanupFailed;
        AtMovesPast(s, i, Finished(r), t);
      }
    case AwaitingClose(why) => WaiterMoves(s, i, io);
  }

  lemma WaiterMoves(s: State, i: nat, io: Io)
    requires i < |s.tasks| && s.tasks[i].phase.AwaitingClose? && GivesUp(Why(s.tasks[i].phase))
    ensures MovesPast(s, i, PollTask(s, i, io)) && PollTask(s, i, io).log == s.log
  {
    var t := PollTask(s, i, io);
    if s.serviceState.Closed? {
      AtMovesPast(s, i, Finished(Why(s.tasks[i].phase)), t);
    } else if s.serviceState.CloseFailed? {
      AtMovesPast(s, i, Finished(CleanupFailed), t);
    } else if io.Elapsed? {
      AtMovesPast(s, i, Finished(CleanupTimeout), t);
    }
  }

  lemma ContendsBooks(s: State, i: nat, p: State, why: Result)
    requires Books(s) && i < |s.tasks| && p == s.(poisoned := p.poisoned, cancelAll := p.cancelAll, log := p.log)
    requires !s.tasks[i].phase.Finished? && GivesUp(why)
    requires forall j: nat :: Sends(p.log, j) == Sends(s.log, j) && Successes(p.log, j) == Successes(s.log, j)
    ensures Books(Contend(p, i, why))
  {
    ContendMoves(p, i, why);
    PastBooks(s, i, Contend(p, i, why));
  }

  lemma InterruptedBooks(s: State, i: nat, why: Result)
    requires Books(s) && i < |s.tasks| && (s.tasks[i].phase.Establishing? || s.tasks[i].phase.Awaiting?)
    requires s.tasks[i].worker && GivesUp(why)
    ensures Books(Interrupted(s, i, why))
  {
    var log := if why.Timeout? then Then(s.log, TimedOut(i)) else s.log;
    assert Booked(s, i);
    if s.tasks[i].phase.Awaiting? {
      assert Interrupted(s, i, why).log == Then(log, Poison);
      PoisonBooks(s.log, TimedOut(i));
      OthersBooked(s, i, Interrupted(s, i, why));
    } else {
      ContendsBooks(s, i, Poisoned(s, log), why);
    }
  }

  lemma RequestBooks(s: State, i: nat, io: Io)
    requires Books(s) && i < |s.tasks| && (s.tasks[i].phase.Establishing? || s.tasks[i].phase.Awaiting?)
    requires s.tasks[i].worker
    ensures Books(PollRequest(s, i, io))
  {
    if s.tasks[i].caller.Gone? || s.cancelAll {
      InterruptedBooks(s, i, Cancelled);
    } else if io.Elapsed? {
      InterruptedBooks(s, i, Timeout);
    } else if io.Done? {
      assert Booked(s, i);
      OthersBooked(s, i, PollRequest(s, i, io));
    }
  }

  lemma CloserBooks(s: State, i: nat, io: Io)
    requires Books(s) && i < |s.tasks| && ClosesFor(s.tasks[i].phase)
    ensures Books(PollTask(s, i, io))
  {
    assert Booked(s, i);
    if s.tasks[i].phase.Notifying? {
      if !io.Quiet? {
        ContendsBooks(s, i, s, Why(s.tasks[i].phase));
      }
    } else {
      CloserMoves(s, i, io);
      PastBooks(s, i, PollTask(s, i, io));
    }
  }

  lemma PollBooks(s: State, i: nat, io: Io)
    requires Books(s) && i < |s.tasks|
    requires s.tasks[i].phase.Establishing? || s.tasks[i].phase.Awaiting? ==> s.tasks[i].worker
    ensures Books(PollTask(s, i, io))
  {
    assert Booked(s, i);
    match s.tasks[i].phase
    case Establishing => RequestBooks(s, i, io);
    case Awaiting => RequestBooks(s, i, io);
    case Starting => MovedBooks(s, i, PollTask(s, i, io));
    case Finished(_) =>
    case _ => CloserBooks(s, i, io);
  }

  lemma CallBooks(s: State, argumentsOk: bool)
    requires Books(s)
    ensures Books(OnCall(s, argumentsOk))
  {
    var t := OnCall(s, argumentsOk);
    forall j | 0 <= j < |t.tasks| ensures Booked(t, j) {
      assert j < |s.tasks| ==> Booked(s, j);
    }
  }

  /** Neither giving up nor its cause is booked. */
  lemma PoisonBooks(log: History, why: Action)
    requires why.DroppedInFlight? || why.TimedOut?
    ensures forall j: nat :: Sends(Then(Then(log, why), Poison), j) == Sends(log, j)
    ensures forall j: nat :: Successes(Then(Then(log, why), Poison), j) == Successes(log, j)
  {
    assert forall j: nat :: Sends(Then(log, why), j) == Sends(log, j) && Successes(Then(log, why), j) == Successes(log, j);
  }

  lemma StepBooks(s: State, e: Event)
    requires Inv(s) && Books(s) && Enabled(s, e)
    ensures Books(Step(s, e))
  {
    match e
    case RoutingFails => assert forall j | 0 <= j < |s.tasks| :: Booked(s, j) ==> Booked(Step(s, e), j);
    case Call(argumentsOk) => CallBooks(s, argumentsOk);
    case Poll(i, io) =>
      assert TaskOk(s, s.tasks[i]);
      PollBooks(s, i, io);
    case DropCaller(i) =>
      assert Booked(s, i);
      PoisonBooks(s.log, DroppedInFlight(i));
      OthersBooked(s, i, Step(s, e));
    case ReturnToCaller(i) =>
      assert Booked(s, i);
      OthersBooked(s, i, Step(s, e));
  }

  lemma {:induction false} RunBooks(s: State, events: seq<Event>)
    requires Inv(s) && Books(s) && Feasible(s, events)
    ensures Inv(Run(s, events)) && Books(Run(s, events))
    decreases |events|
  {
    if events != [] {
      StepKeeps(s, events[0]);
      StepBooks(s, events[0]);
      RunBooks(Step(s, events[0]), events[1..]);
    }
  }

  lemma Reached(events: seq<Event>, s: State)
    requires Happens(events, s)
    ensures Inv(s) && Books(s)
  {
    RunBooks(Start(), events);
  }

  /** A call sends its request at most once, and answers what only a response can say after sending it. */
  lemma AskedOnce(events: seq<Event>, s: State, i: nat)
    requires Happens(events, s) && i < |s.tasks|
    ensures Sends(s.log, i) <= 1
    ensures Asked(s.tasks[i]) ==> Sends(s.log, i) == 1
    ensures Successes(s.log, i) == One(s.tasks[i].phase == Finished(Success))
  {
    Reached(events, s);
    assert Booked(s, i);
  }

  // ---- The answer ----------------------------------------------------------

  /** The call waits for its response, its caller for the call, and nobody has given up. */
  predicate Listens(s: State, i: nat) {
    i < |s.tasks| && s.tasks[i].phase.Awaiting? && !s.tasks[i].caller.Gone? && !s.poisoned
  }

  /** The response decides the answer, and a success is recorded exactly when the tool succeeded. */
  lemma ResponseIsTheAnswer(events: seq<Event>, s: State, i: nat, ok: bool, r: Result)
    requires Happens(events, s) && Listens(s, i)
    ensures var t := Step(s, Poll(i, Done(ok, r)));
            && |t.tasks| == |s.tasks| && t.tasks[i].phase.Finished? && !t.poisoned
            && (t.tasks[i].phase.result.Success? <==> ok && r.Success?)
            && (t.tasks[i].phase.result.ToolError? <==> ok && r.ToolError?)
            && (t.tasks[i].phase.result.UnexpectedResponse? <==> ok && !r.Success? && !r.ToolError?)
            && (t.tasks[i].phase.result.ServiceError? <==> !ok)
            && (t.log == if ok && r.Success? then Then(s.log, Succeeded(i)) else s.log)
  {
    Reached(events, s);
  }

  predicate SuccessArrives(s: State, i: nat, e: Event) {
    Listens(s, i) && e.Poll? && e.task == i && e.io.Done? && e.io.ok && e.io.result.Success?
  }

  /** In this run the call's response arrived while it listened, and was a success. */
  ghost predicate GotSuccess(s: State, i: nat, events: seq<Event>)
    requires Feasible(s, events)
    decreases |events|
  {
    events != [] && (SuccessArrives(s, i, events[0]) || GotSuccess(Step(s, events[0]), i, events[1..]))
  }

  predicate HasSucceeded(s: State, i: nat) { i < |s.tasks| && s.tasks[i].phase == Finished(Success) }

  lemma SuccessPoll(s: State, i: nat, io: Io)
    requires Inv(s) && Books(s) && i < |s.tasks| && !s.tasks[i].phase.Finished?
    ensures Only(s, i, PollTask(s, i, io))
    ensures HasSucceeded(PollTask(s, i, io), i) <==> SuccessArrives(s, i, Poll(i, io))
  {
    assert Booked(s, i);
    if ClosesFor(s.tasks[i].phase) && !s.tasks[i].phase.Notifying? {
      CloserMoves(s, i, io);
    } else if s.tasks[i].phase.Notifying? {
      ContendMoves(s, i, Why(s.tasks[i].phase));
    } else if !s.tasks[i].phase.Starting? {
      SuccessRequest(s, i, io);
    }
  }

  lemma SuccessRequest(s: State, i: nat, io: Io)
    requires Inv(s) && i < |s.tasks| && (s.tasks[i].phase.Establishing? || s.tasks[i].phase.Awaiting?)
    ensures Only(s, i, PollRequest(s, i, io))
    ensures HasSucceeded(PollRequest(s, i, io), i) <==> SuccessArrives(s, i, Poll(i, io))
  {
    if s.tasks[i].caller.Gone? || s.cancelAll || io.Elapsed? {
      var why := if s.tasks[i].caller.Gone? || s.cancelAll then Cancelled else Timeout;
      ContendMoves(Poisoned(s, if why.Timeout? then Then(s.log, TimedOut(i)) else s.log), i, why);
    }
  }

  lemma SuccessStep(s: State, e: Event, i: nat)
    requires Inv(s) && Books(s) && Enabled(s, e)
    ensures HasSucceeded(Step(s, e), i) <==> HasSucceeded(s, i) || SuccessArrives(s, i, e)
  {
    if e.Poll? {
      assert Booked(s, e.task);
      if !s.tasks[e.task].phase.Finished? {
        SuccessPoll(s, e.task, e.io);
      }
    } else if i < |s.tasks| {
      assert Booked(s, i);
    }
  }

  lemma {:induction false} SuccessRun(s: State, events: seq<Event>, i: nat)
    requires Inv(s) && Books(s) && Feasible(s, events)
    ensures HasSucceeded(Run(s, events), i) <==> HasSucceeded(s, i) || GotSuccess(s, i, events)
    decreases |events|
  {
    if events != [] {
      SuccessStep(s, events[0], i);
      StepKeeps(s, events[0]);
      StepBooks(s, events[0]);
      SuccessRun(Step(s, events[0]), events[1..], i);
    }
  }

  /** A call has succeeded exactly if its successful response arrived while it listened. */
  lemma SuccessIff(events: seq<Event>, s: State, i: nat)
    requires Happens(events, s)
    ensures HasSucceeded(s, i) <==> GotSuccess(Start(), i, events)
  {
    SuccessRun(Start(), events, i);
  }

  // ---- Starting and giving up ----------------------------------------------

  /** Routing has failed exactly if that was reported. */
  lemma {:induction false} RoutingFailedIff(s: State, events: seq<Event>)
    requires Feasible(s, events)
    ensures Run(s, events).routingFailed <==> s.routingFailed || RoutingFails in events
    decreases |events|
  {
    if events != [] {
      RoutingStep(s, events[0]);
      RoutingFailedIff(Step(s, events[0]), events[1..]);
      assert events == [events[0]] + events[1..];
    }
  }

  lemma RoutingStep(s: State, e: Event)
    requires Enabled(s, e)
    ensures Step(s, e).routingFailed <==> s.routingFailed || e.RoutingFails?
  {
  }

  /** A call is started exactly if routing never failed, nobody has given up and its arguments are an object. */
  lemma CallStartsIff(events: seq<Event>, s: State, argumentsOk: bool)
    requires Happens(events, s)
    ensures var t, lost := Step(s, Call(argumentsOk)), RoutingFails in events;
            && |t.tasks| == |s.tasks| + 1 && t.tasks[..|s.tasks|] == s.tasks
            && var x := t.tasks[|s.tasks|];
            && (x == Task(true, Starting, Waiting) <==> !lost && !s.poisoned && argumentsOk)
            && (x == Task(false, Finished(ToolError), Returned) <==> !lost && !s.poisoned && !argumentsOk)
            && (s.poisoned && !lost ==> x == Task(false, Finished(FailClosed), Returned))
            && (lost ==> t.poisoned && t.cancelAll && !x.worker && GaveUp(x.phase, FailClosed, s.serviceState))
  {
    Reached(events, s);
    RoutingFailedIff(Start(), events);
  }

  /** Having given up: closing the service, waiting for whoever closes it, or it is closed already. */
  predicate GaveUp(p: Phase, why: Result, service: ServiceState) {
    match service
    case Open => p == Locking(why)
    case Closing => p == AwaitingClose(why)
    case Closed => p == Finished(why)
    case CloseFailed => p == Finished(CleanupFailed)
  }

  /**
   A call gives up exactly if its caller is gone, somebody else has given up, or its
   deadline has passed; that poisons the client and cancels every call.
   */
  lemma GivesUpIff(events: seq<Event>, s: State, i: nat, io: Io)
    requires Happens(events, s) && i < |s.tasks| && (s.tasks[i].phase.Establishing? || s.tasks[i].phase.Awaiting?)
    ensures var t, gone := Step(s, Poll(i, io)), s.tasks[i].caller.Gone? || s.poisoned;
            && |t.tasks| == |s.tasks|
            && (t.poisoned <==> gone || io.Elapsed?)
            && (t.poisoned ==>
                  var why := if gone then Cancelled else Timeout;
                  && t.cancelAll
                  && if s.tasks[i].phase.Awaiting? then t.tasks[i].phase == Notifying(why)
                     else GaveUp(t.tasks[i].phase, why, s.serviceState))
            && (!t.poisoned && io.Quiet? ==> t == s)
            && (!t.poisoned && s.tasks[i].phase.Establishing? && io.Done? ==>
                  if io.ok then t.tasks[i].phase.Awaiting? && t.log == Then(s.log, Sent(i))
                  else t.tasks[i].phase == Finished(ServiceError) && t.log == s.log)
  {
    Reached(events, s);
    assert TaskOk(s, s.tasks[i]);
  }

  /** A started call asks for its request unless somebody has given up before its first poll. */
  lemma FirstPollIff(events: seq<Event>, s: State, i: nat, io: Io)
    requires Happens(events, s) && i < |s.tasks| && s.tasks[i].phase.Starting?
    ensures var t := Step(s, Poll(i, io));
            && |t.tasks| == |s.tasks| && t.log == s.log
            && t.tasks[i].phase == if s.poisoned then Finished(Cancelled) else Establishing
  {
    Reached(events, s);
  }

  /**
   A call that gave up answers its reason exactly if the service is closed by then; else it
   says that closing failed, or that it took too long.
   */
  lemma CleanupIsTheAnswer(events: seq<Event>, s: State, i: nat, io: Io)
    requires Happens(events, s) && i < |s.tasks| && ClosesFor(s.tasks[i].phase)
    requires Step(s, Poll(i, io)).tasks[i].phase.Finished?
    ensures var t := Step(s, Poll(i, io));
            var r := t.tasks[i].phase.result;
            && (r == Why(s.tasks[i].phase) <==> t.serviceState.Closed?)
            && (r == CleanupTimeout <==> io.Elapsed? && !s.serviceState.Closed? && !s.serviceState.CloseFailed?)
            && (r == Why(s.tasks[i].phase) || r == CleanupTimeout || r == CleanupFailed)
            && (r == CleanupFailed ==> t.serviceState.CloseFailed?)
  {
    Reached(events, s);
    assert TaskOk(s, s.tasks[i]) && Booked(s, i);
    if Owns(s.tasks[i]) {
      OwnerCounted(s.tasks, i);
    }
  }

  lemma First(s: State, e: Event, rest: seq<Event>)
    requires Enabled(s, e) && Feasible(Step(s, e), rest)
    ensures Feasible(s, [e] + rest) && Run(s, [e] + rest) == Run(Step(s, e), rest)
  {
    assert ([e] + rest)[1..] == rest;
  }

  /** Who gives up first closes the service: it tells the server, takes the service, closes it and answers. */
  lemma FirstToGiveUpCloses(events: seq<Event>, s: State, i: nat, first: Io, second: Io, r: Result)
    requires Happens(events, s) && i < |s.tasks| && s.tasks[i].phase.Notifying? && s.serviceState.Open?
    requires !first.Quiet?
    ensures var polls := [Poll(i, first), Poll(i, second), Poll(i, Done(true, r))];
            && Feasible(s, polls)
            && Run(s, polls).serviceState.Closed?
            && |Run(s, polls).tasks| == |s.tasks|
            && Run(s, polls).tasks[i].phase == Finished(s.tasks[i].phase.why)
  {
    Reached(events, s);
    var polls := [Poll(i, first), Poll(i, second), Poll(i, Done(true, r))];
    var s1 := Step(s, polls[0]);
    var s2 := Step(s1, polls[1]);
    var s3 := Step(s2, polls[2]);
    First(s2, polls[2], []);
    First(s1, polls[1], [polls[2]] + []);
    First(s, polls[0], [polls[1]] + ([polls[2]] + []));
    assert polls == [polls[0]] + ([polls[1]] + ([polls[2]] + []));
    assert s3.serviceState.Closed?;
  }

  /** Idle means no live call, and a closed service if anybody gave up; a failed close is told apart. */
  lemma LookTellsIff(events: seq<Event>, s: State)
    requires Happens(events, s)
    ensures var quiet := forall i | 0 <= i < |s.tasks| :: !Live(s.tasks[i]);
            && (LookForIdle(s).Idle? <==> quiet && (s.poisoned ==> s.serviceState.Closed?))
            && (LookForIdle(s).Failed? <==> quiet && s.serviceState.CloseFailed?)
  {
    ActiveCallsAreLive(events, s);
    Reached(events, s);
  }

  // ---- Callers that go away ------------------------------------------------

  /** A worker whose caller is dropped goes on, to give up at its next poll; anybody else just ends. */
  lemma DroppedCallerIsGone(s: State, i: nat)
    requires Enabled(s, DropCaller(i))
    ensures var t := Step(s, DropCaller(i));
            && Only(s, i, t) && t.tasks[i].caller.Gone? && t.serviceState == s.serviceState
            && t.tasks[i].phase == (if s.tasks[i].worker then s.tasks[i].phase else Finished(Cancelled))
            && (t.poisoned <==> s.poisoned || s.tasks[i].worker)
  {
  }

  /** A call that has returned can no longer be dropped. */
  lemma ReturnedIsSafe(s: State, i: nat)
    requires Enabled(s, ReturnToCaller(i))
    ensures Only(s, i, Step(s, ReturnToCaller(i))) && !Enabled(Step(s, ReturnToCaller(i)), DropCaller(i))
    ensures Step(s, ReturnToCaller(i)).tasks[i].phase == s.tasks[i].phase
  {
  }

  /** The service is being closed by nobody. */
  ghost predicate Abandoned(s: State) { Inv(s) && s.serviceState.Closing? && OwnerCount(s.tasks) == 0 }

  lemma AbandonedPoll(s: State, i: nat, io: Io)
    requires Abandoned(s) && i < |s.tasks|
    ensures PollTask(s, i, io).serviceState.Closing?
    ensures |PollTask(s, i, io).tasks| == |s.tasks| && !Owns(PollTask(s, i, io).tasks[i])
    ensures PollTask(s, i, io).tasks == s.tasks[i := PollTask(s, i, io).tasks[i]]
  {
    if Owns(s.tasks[i]) {
      OwnerCounted(s.tasks, i);
    }
  }

  lemma AbandonedCall(s: State, argumentsOk: bool)
    requires Abandoned(s)
    ensures OnCall(s, argumentsOk).serviceState.Closing? && OwnerCount(OnCall(s, argumentsOk).tasks) == 0
  {
    var t := OnCall(s, argumentsOk);
    assert |t.tasks| == |s.tasks| + 1;
    assert t.tasks[..|s.tasks|] == s.tasks;
  }

  lemma AbandonedStep(s: State, e: Event)
    requires Abandoned(s) && Enabled(s, e)
    ensures Abandoned(Step(s, e))
  {
    StepKeeps(s, e);
    match e
    case Poll(i, io) =>
      AbandonedPoll(s, i, io);
      if Owns(s.tasks[i]) {
        OwnerCounted(s.tasks, i);
      }
      CountUpdate(s.tasks, i, PollTask(s, i, io).tasks[i]);
    case DropCaller(i) =>
      if Owns(s.tasks[i]) {
        OwnerCounted(s.tasks, i);
      }
      CountUpdate(s.tasks, i, Step(s, e).tasks[i]);
    case ReturnToCaller(i) => CountUpdate(s.tasks, i, Step(s, e).tasks[i]);
    case Call(argumentsOk) => AbandonedCall(s, argumentsOk);
    case RoutingFails =>
  }

  lemma {:induction false} AbandonedForever(s: State, more: seq<Event>)
    requires Abandoned(s) && Feasible(s, more)
    ensures Abandoned(Run(s, more))
    decreases |more|
  {
    if more != [] {
      AbandonedStep(s, more[0]);
      AbandonedForever(Step(s, more[0]), more[1..]);
    }
  }

  /**
   A caller that closes the service itself and is dropped meanwhile abandons the close:
   whatever follows, the service is never closed and no look finds the client idle.
   */
  lemma DroppedCloserNeverCloses(events: seq<Event>, s: State, i: nat, more: seq<Event>)
    requires Happens(events, s) && Enabled(s, DropCaller(i)) && Owns(s.tasks[i]) && !s.tasks[i].worker
    requires Feasible(Step(s, DropCaller(i)), more)
    ensures Run(Step(s, DropCaller(i)), more).serviceState.Closing?
    ensures LookForIdle(Run(Step(s, DropCaller(i)), more)).NotYet?
  {
    Reached(events, s);
    OwnerCounted(s.tasks, i);
    StepKeeps(s, DropCaller(i));
    CountUpdate(s.tasks, i, Step(s, DropCaller(i)).tasks[i]);
    AbandonedForever(Step(s, DropCaller(i)), more);
  }

  lemma {:induction false} NoOwners(tasks: seq<Task>)
    requires forall i | 0 <= i < |tasks| :: !Owns(tasks[i])
    ensures OwnerCount(tasks) == 0
  {
    if tasks != [] {
      NoOwners(tasks[..|tasks| - 1]);
    }
  }

  ghost predicate CanClose(s: State) { exists more :: Feasible(s, more) && Run(s, more).serviceState.Closed? }

  /** Whoever owns the close can finish it. */
  lemma OwnerCloses(s: State, i: nat)
    requires Inv(s) && i < |s.tasks| && Owns(s.tasks[i])
    ensures CanClose(s)
  {
    var close := Poll(i, Done(true, Success));
    assert TaskOk(s, s.tasks[i]);
    if s.tasks[i].phase.Locking? {
      var t := Step(s, Poll(i, Quiet));
      First(t, close, []);
      First(s, Poll(i, Quiet), [close] + []);
      assert Step(t, close).serviceState.Closed?;
    } else {
      First(s, close, []);
      assert Step(s, close).serviceState.Closed?;
    }
  }

  /** A close that has begun can still be finished exactly if somebody owns it. */
  lemma CanCloseIff(events: seq<Event>, s: State)
    requires Happens(events, s) && s.serviceState.Closing?
    ensures CanClose(s) <==> exists i | 0 <= i < |s.tasks| :: Owns(s.tasks[i])
  {
    Reached(events, s);
    if i :| 0 <= i < |s.tasks| && Owns(s.tasks[i]) {
      OwnerCloses(s, i);
    } else {
      NoOwners(s.tasks);
      forall more | Feasible(s, more) ensures !Run(s, more).serviceState.Closed? {
        AbandonedForever(s, more);
      }
    }
  }
}
