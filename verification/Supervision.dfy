/**
 Session supervision: prepared turns, the one active slot, a worker and the supervisor
 that outlives whoever waits for it.

 One step is one poll segment. The active lock is only ever held within a segment, so
 taking it is part of the step. A session's id is its place in `sessions`.
 */
module Supervision {
  import opened Options

  datatype Outcome = Clean | Failed | ForcedTimeout

  /** The task that runs the turn: prepared, waiting for the outcome, cleaning up, done. */
  datatype Waiter = Prepared | Waiting | Returned(refused: bool) | Finished | Dropped

  datatype Worker = NotStarted | Working | Ended(ok: bool)

  datatype Supervisor =
    | Unborn
    | Watching
    | Cancelling
    | Overdue
    | Releasing(outcome: Outcome)
    | Done

  datatype SetupPhase = Connecting | ResourcesOwned | Cancelled

  datatype Session = Session(
    waiter: Waiter,
    worker: Worker,
    supervisor: Supervisor,
    cancelled: bool,
    activated: bool,
    interrupts: nat,
    setup: SetupPhase,
    setups: nat,
    terminal: Option<Outcome>)

  datatype State = State(sessions: seq<Session>, slot: Option<nat>)

  const Fresh := Session(Prepared, NotStarted, Unborn, false, false, 0, Connecting, 0, None)

  function Start(): State { State([], None) }

  datatype Event =
    | Prepare
    | ToolsFail(id: nat)
    | Enter(id: nat)
    | SetUp(id: nat)
    | Cancel(id: nat)
    | Activate(id: nat)
    | Interrupt(id: nat)
    | WorkerEnds(id: nat, ok: bool)
    | Watch(id: nat, workerFirst: bool)
    | AwaitCancelled(id: nat, deadline: bool)
    | AwaitOverdue(id: nat)
    | Release(id: nat)
    | Notice(id: nat)
    | CleanUp(id: nat)
    | DropWaiter(id: nat)

  function FromWorker(worker: Worker): Outcome {
    if worker == Ended(true) then Clean else Failed
  }

  function RequestCancel(x: Session): Session { x.(cancelled := true, setup := Cancelled) }

  /** Running under `supervisor`: the worker is spawned with it. */
  function Supervised(x: Session): Session {
    x.(waiter := Waiting, worker := Working, supervisor := Watching)
  }

  /** The refused turn's guard cancels its own handle. */
  function Refused(x: Session): Session {
    RequestCancel(x).(waiter := Returned(true))
  }

  /** The slot admits a newcomer when it is empty or its session has completed. */
  predicate Admits(s: State) {
    s.slot.Some? ==> s.slot.value < |s.sessions| && s.sessions[s.slot.value].terminal.Some?
  }

  function With(s: State, id: nat, x: Session): State
    requires id < |s.sessions|
  {
    s.(sessions := s.sessions[id := x])
  }

  function Watched(x: Session, workerFirst: bool): Session {
    if x.worker.Ended? && (workerFirst || !x.cancelled) then x.(supervisor := Releasing(FromWorker(x.worker)))
    else if x.cancelled then x.(supervisor := Cancelling)
    else x
  }

  function AfterCancel(x: Session, deadline: bool): Session {
    if x.worker.Ended? then x.(supervisor := Releasing(FromWorker(x.worker)))
    else if deadline then x.(supervisor := Overdue)
    else x
  }

  /** `setup_if_running`: resources appear only while nobody has asked to cancel. */
  function SetUpIfRunning(x: Session): Session {
    if x.setup.Cancelled? || x.cancelled then x.(setup := Cancelled)
    else x.(setup := ResourcesOwned, setups := x.setups + 1)
  }

  function ClearedIfOwned(slot: Option<nat>, id: nat): Option<nat> { if slot == Some(id) then None else slot }

  predicate Enabled(s: State, e: Event) {
    if e.Prepare? then true
    else
      e.id < |s.sessions| &&
      var x := s.sessions[e.id];
      match e
      case ToolsFail(_) => x.waiter.Prepared?
      case Enter(_) => x.waiter.Prepared?
      case SetUp(_) => x.worker.Working?
      case WorkerEnds(_, _) => x.worker.Working?
      case Watch(_, _) => x.supervisor.Watching?
      case AwaitCancelled(_, _) => x.supervisor.Cancelling?
      case AwaitOverdue(_) => x.supervisor.Overdue? && x.worker.Ended?
      case Release(_) => x.supervisor.Releasing?
      case Notice(_) => x.waiter.Waiting? && x.terminal.Some?
      case CleanUp(_) => x.waiter.Returned?
      case DropWaiter(_) => x.waiter.Prepared? || x.waiter.Waiting?
      case _ => true
  }

  function Step(s: State, e: Event): State
    requires Enabled(s, e)
  {
    if e.Prepare? then s.(sessions := s.sessions + [Fresh])
    else
      var x := s.sessions[e.id];
      match e
      case ToolsFail(id) => With(s, id, x.(waiter := Returned(false)))
      case Enter(id) =>
        if Admits(s) then State(s.sessions[id := Supervised(x)], Some(id)) else With(s, id, Refused(x))
      case SetUp(id) => With(s, id, SetUpIfRunning(x))
      case Cancel(id) => With(s, id, RequestCancel(x))
      case Activate(id) => With(s, id, x.(activated := true))
      case Interrupt(id) => With(s, id, x.(interrupts := x.interrupts + 1))
      case WorkerEnds(id, ok) => With(s, id, x.(worker := Ended(ok)))
      case Watch(id, workerFirst) => With(s, id, Watched(x, workerFirst))
      case AwaitCancelled(id, deadline) => With(s, id, AfterCancel(x, deadline))
      case AwaitOverdue(id) => With(s, id, x.(supervisor := Releasing(ForcedTimeout)))
      case Release(id) =>
        State(s.sessions[id := x.(supervisor := Done, terminal := Some(x.supervisor.outcome))],
              ClearedIfOwned(s.slot, id))
      case Notice(id) => With(s, id, x.(waiter := Returned(false)))
      case CleanUp(id) => With(s, id, x.(waiter := Finished))
      case DropWaiter(id) =>
        With(s, id, (if x.waiter.Waiting? then RequestCancel(x) else x).(waiter := Dropped))
  }

  predicate Feasible(s: State, events: seq<Event>)
    decreases |events|
  {
    events == [] || (Enabled(s, events[0]) && Feasible(Step(s, events[0]), events[1..]))
  }

  function Run(s: State, events: seq<Event>): State
    requires Feasible(s, events)
    decreases |events|
  {
    if events == [] then s else Run(Step(s, events[0]), events[1..])
  }

  predicate Happens(events: seq<Event>, s: State) {
    Feasible(Start(), events) && s == Run(Start(), events)
  }

  // ---- What every run keeps ------------------------------------------------

  predicate Supervising(x: Session) { !x.supervisor.Unborn? && !x.supervisor.Done? }

  ghost predicate SessionOk(slot: Option<nat>, id: nat, x: Session) {
    && (Supervising(x) <==> slot == Some(id))
    && (x.supervisor.Done? <==> x.terminal.Some?)
    && (x.supervisor.Unborn? <==> x.worker.NotStarted?)
    && (x.worker.Working? ==> !x.supervisor.Releasing? && !x.supervisor.Done?)
    && (x.waiter.Prepared? || x.waiter == Returned(true) ==> x.supervisor.Unborn?)
    && (x.waiter.Waiting? ==> !x.supervisor.Unborn?)
    && (x.waiter.Returned? || x.waiter.Finished? ==> !Supervising(x))
    && (x.cancelled ==> x.setup.Cancelled?)
    && (x.waiter.Dropped? && !x.supervisor.Unborn? ==> x.cancelled || x.terminal.Some?)
    && OutcomeOk(x)
  }

  /** What an outcome says about its worker. */
  ghost predicate OutcomeOk(x: Session) {
    && (x.supervisor.Cancelling? || x.supervisor.Overdue? ==> x.cancelled)
    && (x.supervisor.Releasing? ==> Truthful(x, x.supervisor.outcome))
    && (x.terminal.Some? ==> Truthful(x, x.terminal.value))
  }

  /** The outcome is the worker's own result, or a forced timeout of a cancelled session. */
  ghost predicate Truthful(x: Session, outcome: Outcome) {
    x.worker.Ended? && (outcome == FromWorker(x.worker) || (outcome.ForcedTimeout? && x.cancelled))
  }

  ghost predicate Inv(s: State) {
    && (forall id | 0 <= id < |s.sessions| :: SessionOk(s.slot, id, s.sessions[id]))
    && (s.slot.Some? ==> s.slot.value < |s.sessions|)
  }

  lemma WorkerKeeps(s: State, e: Event)
    requires Inv(s) && Enabled(s, e)
    requires e.SetUp? || e.Cancel? || e.Activate? || e.Interrupt? || e.WorkerEnds? ||
             e.Watch? || e.AwaitCancelled? || e.AwaitOverdue?
    ensures Inv(Step(s, e))
  {
    assert SessionOk(s.slot, e.id, s.sessions[e.id]);
  }

  lemma StepKeeps(s: State, e: Event)
    requires Inv(s) && Enabled(s, e)
    ensures Inv(Step(s, e))
  {
    if e.Enter? {
    } else if e.Release? {
    } else if e.ToolsFail? || e.Notice? || e.CleanUp? || e.DropWaiter? {
    } else if !e.Prepare? {
      WorkerKeeps(s, e);
    }
  }

  lemma {:induction false} RunKeeps(s: State, events: seq<Event>)
    requires Inv(s) && Feasible(s, events)
    ensures Inv(Run(s, events))
    decreases |events|
  {
    if events != [] {
      StepKeeps(s, events[0]);
      RunKeeps(Step(s, events[0]), events[1..]);
    }
  }

  /** `t` is `s` after the event. */
  ghost predicate Follows(s: State, e: Event, t: State) { Enabled(s, e) && t == Step(s, e) }

  // ---- The theorems --------------------------------------------------------

  /** Whatever is prepared, cancelled or dropped, at most one worker is live, and it owns the slot. */
  lemma OneLiveWorker(events: seq<Event>, s: State)
    requires Happens(events, s)
    ensures forall i | 0 <= i < |s.sessions| && s.sessions[i].worker.Working? :: s.slot == Some(i)
    ensures forall i, j | 0 <= i < j < |s.sessions| :: !(s.sessions[i].worker.Working? && s.sessions[j].worker.Working?)
  {
    RunKeeps(Start(), events);
    forall i | 0 <= i < |s.sessions| && s.sessions[i].worker.Working? ensures s.slot == Some(i) {
      assert SessionOk(s.slot, i, s.sessions[i]);
    }
  }

  /** A session that has completed still finds the slot its own: no release clears a newer session's slot. */
  lemma ReleaseClearsOwnSlot(events: seq<Event>, s: State, e: Event, t: State)
    requires Happens(events, s) && Follows(s, e, t) && s.slot.Some?
    ensures t.slot != s.slot ==> e == Release(s.slot.value) && t.slot == None
    ensures e.Release? ==> s.slot == Some(e.id)
  {
    RunKeeps(Start(), events);
    if e.Release? {
      assert SessionOk(s.slot, e.id, s.sessions[e.id]);
    }
  }

  /** An outcome is published only after the worker ended and the slot was released, and it is truthful. */
  lemma TerminalMeansReleased(events: seq<Event>, s: State, id: nat)
    requires Happens(events, s) && id < |s.sessions| && s.sessions[id].terminal.Some?
    ensures s.sessions[id].worker.Ended? && s.slot != Some(id)
    ensures Truthful(s.sessions[id], s.sessions[id].terminal.value)
  {
    RunKeeps(Start(), events);
    assert SessionOk(s.slot, id, s.sessions[id]);
  }

  /**
   A newcomer is refused exactly while some earlier session is still supervised, so the
   branch that would replace a completed session left in the slot is never taken.
   */
  lemma RefusedIffSupervised(events: seq<Event>, s: State, id: nat)
    requires Happens(events, s) && Enabled(s, Enter(id))
    ensures Step(s, Enter(id)).sessions[id].waiter == Returned(true) <==>
            exists j | 0 <= j < |s.sessions| :: Supervising(s.sessions[j])
    ensures Admits(s) ==> s.slot.None?
  {
    RunKeeps(Start(), events);
    if s.slot.Some? {
      assert SessionOk(s.slot, s.slot.value, s.sessions[s.slot.value]);
    } else {
      assert forall j | 0 <= j < |s.sessions| :: SessionOk(s.slot, j, s.sessions[j]);
    }
  }

  /** A waiter dropped while its session runs has cancelled it; the supervisor stays to release the slot. */
  lemma DroppedWaiterCancels(events: seq<Event>, s: State, id: nat)
    requires Happens(events, s) && id < |s.sessions| && s.sessions[id].waiter.Dropped?
    ensures s.slot == Some(id) ==> s.sessions[id].cancelled && Supervising(s.sessions[id])
    ensures s.sessions[id].worker.Working? ==> s.slot == Some(id)
  {
    RunKeeps(Start(), events);
    assert SessionOk(s.slot, id, s.sessions[id]);
  }

  /** Once a session is cancelled, its worker sets nothing up any more. */
  lemma {:induction false} NoSetUpAfterCancel(s: State, more: seq<Event>, id: nat)
    requires Inv(s) && Feasible(s, more) && id < |s.sessions| && s.sessions[id].cancelled
    ensures id < |Run(s, more).sessions|
    ensures Run(s, more).sessions[id].cancelled && Run(s, more).sessions[id].setups == s.sessions[id].setups
    decreases |more|
  {
    if more != [] {
      StepKeeps(s, more[0]);
      assert SessionOk(s.slot, id, s.sessions[id]);
      NoSetUpAfterCancel(Step(s, more[0]), more[1..], id);
    }
  }
}
