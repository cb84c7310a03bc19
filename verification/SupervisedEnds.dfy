/** How a supervised session starts, is cancelled and ends. */
module SupervisedEnds {
  import opened Options
  import opened Supervision

  lemma Reached(events: seq<Event>, s: State)
    requires Happens(events, s)
    ensures Inv(s)
  {
    RunKeeps(Start(), events);
  }

  // ---- The outcome ---------------------------------------------------------

  /** The deadline passes while the cancelled session's worker is still at work. */
  predicate Overruns(s: State, id: nat, e: Event) {
    e == AwaitCancelled(id, true) && id < |s.sessions| && s.sessions[id].worker.Working?
  }

  predicate Overran(s: State, id: nat, events: seq<Event>)
    requires Feasible(s, events)
    decreases |events|
  {
    events != [] && (Overruns(s, id, events[0]) || Overran(Step(s, events[0]), id, events[1..]))
  }

  /** The supervisor has noticed that the deadline passed. */
  ghost predicate Late(s: State, id: nat) {
    id < |s.sessions| &&
    var x := s.sessions[id];
    x.supervisor.Overdue? || x.supervisor == Releasing(ForcedTimeout) || x.terminal == Some(ForcedTimeout)
  }

  /** An outcome that is not a timeout says how the worker ended. */
  predicate SaysHow(x: Session, outcome: Outcome) {
    && (outcome.Clean? ==> x.worker == Ended(true))
    && (outcome.Failed? ==> x.worker == Ended(false))
  }

  ghost predicate Honest(s: State) {
    forall id | 0 <= id < |s.sessions| ::
      var x := s.sessions[id];
      && (x.supervisor.Releasing? ==> SaysHow(x, x.supervisor.outcome))
      && (x.terminal.Some? ==> SaysHow(x, x.terminal.value))
  }

  lemma StepIsHonest(s: State, e: Event, id: nat)
    requires Inv(s) && Honest(s) && Enabled(s, e)
    ensures Honest(Step(s, e))
    ensures Late(Step(s, e), id) <==> Late(s, id) || Overruns(s, id, e)
  {
    if !e.Prepare? {
      assert SessionOk(s.slot, e.id, s.sessions[e.id]);
    }
  }

  lemma {:induction false} RunIsHonest(s: State, events: seq<Event>, id: nat)
    requires Inv(s) && Honest(s) && Feasible(s, events)
    ensures Honest(Run(s, events))
    ensures Late(Run(s, events), id) <==> Late(s, id) || Overran(s, id, events)
    decreases |events|
  {
    if events != [] {
      StepIsHonest(s, events[0], id);
      StepKeeps(s, events[0]);
      RunIsHonest(Step(s, events[0]), events[1..], id);
    }
  }

  /**
   A session's outcome is a forced timeout exactly if its deadline passed while the worker
   was still at work after a cancel; otherwise it is clean exactly if the worker ended well.
   */
  lemma OutcomeIff(events: seq<Event>, s: State, id: nat)
    requires Happens(events, s) && id < |s.sessions| && s.sessions[id].terminal.Some?
    ensures var outcome, worker := s.sessions[id].terminal.value, s.sessions[id].worker;
            && (outcome.ForcedTimeout? <==> Overran(Start(), id, events))
            && (outcome.Clean? <==> worker == Ended(true) && !Overran(Start(), id, events))
            && (outcome.Failed? <==> worker == Ended(false) && !Overran(Start(), id, events))
  {
    Reached(events, s);
    RunIsHonest(Start(), events, id);
    assert SessionOk(s.slot, id, s.sessions[id]);
  }

  /** What the supervisor of a session whose worker has ended does next. */
  function Notices(x: Session, id: nat): Event
    requires Supervising(x) && !x.supervisor.Releasing?
  {
    if x.supervisor.Watching? then Watch(id, true)
    else if x.supervisor.Cancelling? then AwaitCancelled(id, false)
    else AwaitOverdue(id)
  }

  /** What a supervisor's segments make of a session whose worker ended like this. */
  function Verdict(x: Session, ok: bool): Outcome {
    if x.supervisor.Overdue? then ForcedTimeout else if ok then Clean else Failed
  }

  /**
   When a worker ends, its supervisor's next two segments release the slot and publish the
   outcome; the waiter, if it still waits, then learns of it, cleans up and is done.
   */
  lemma EndedIsReleased(events: seq<Event>, s: State, id: nat, ok: bool)
    requires Happens(events, s) && Enabled(s, WorkerEnds(id, ok))
    ensures var x := s.sessions[id];
            var s1 := Step(s, WorkerEnds(id, ok));
            && s.slot == Some(id) && Supervising(x) && !x.supervisor.Releasing?
            && |s1.sessions| == |s.sessions| && s1.sessions[id] == x.(worker := Ended(ok))
            && var e := Notices(x, id);
            && Enabled(s1, e) && Enabled(Step(s1, e), Release(id))
            && var t := Step(Step(s1, e), Release(id));
            && t.slot.None? && |t.sessions| == |s.sessions|
            && t.sessions[id].terminal == Some(Verdict(x, ok))
            && (x.waiter.Waiting? ==>
                  Enabled(t, Notice(id)) && Enabled(Step(t, Notice(id)), CleanUp(id)) &&
                  Step(Step(t, Notice(id)), CleanUp(id)) == With(t, id, t.sessions[id].(waiter := Waiter.Finished)))
  {
    Reached(events, s);
    assert SessionOk(s.slot, id, s.sessions[id]);
  }

  /**
   A watching supervisor goes on watching exactly while the worker works and nobody has
   cancelled; of both it may see either first. Cancelled, it gives the worker one deadline.
   */
  lemma SupervisorNotices(s: State, id: nat, first: bool, deadline: bool)
    requires id < |s.sessions|
    ensures Enabled(s, Watch(id, first)) ==>
              var x, t := s.sessions[id], Step(s, Watch(id, first));
              && |t.sessions| == |s.sessions|
              && (t == s <==> !x.worker.Ended? && !x.cancelled)
              && (t.sessions[id].supervisor.Releasing? <==> x.worker.Ended? && (first || !x.cancelled))
              && (t.sessions[id].supervisor.Cancelling? <==> x.cancelled && !(x.worker.Ended? && first))
    ensures Enabled(s, AwaitCancelled(id, deadline)) ==>
              var x, t := s.sessions[id], Step(s, AwaitCancelled(id, deadline));
              && |t.sessions| == |s.sessions|
              && (t == s <==> !x.worker.Ended? && !deadline)
              && (t.sessions[id].supervisor.Releasing? <==> x.worker.Ended?)
              && (t.sessions[id].supervisor.Overdue? <==> !x.worker.Ended? && deadline)
  {
  }

  /** A turn whose tools fail, or that is refused, cleans up and is done without ever taking the slot. */
  lemma UnstartedTurnsFinish(events: seq<Event>, s: State, id: nat)
    requires Happens(events, s) && id < |s.sessions| && s.sessions[id].waiter.Prepared?
    ensures Enabled(s, ToolsFail(id)) && Enabled(Step(s, ToolsFail(id)), CleanUp(id))
    ensures Step(Step(s, ToolsFail(id)), CleanUp(id)) == With(s, id, s.sessions[id].(waiter := Waiter.Finished))
    ensures Enabled(s, Enter(id))
    ensures s.slot.Some? ==>
              var t := Step(s, Enter(id));
              Enabled(t, CleanUp(id)) && |t.sessions| == |s.sessions| &&
              Step(t, CleanUp(id)) == With(t, id, t.sessions[id].(waiter := Waiter.Finished))
  {
    Reached(events, s);
    if s.slot.Some? {
      assert SessionOk(s.slot, s.slot.value, s.sessions[s.slot.value]);
    }
  }

  /** A dropped waiter is gone: nothing it would have learned reaches it. */
  lemma {:induction false} DroppedStaysDropped(s: State, more: seq<Event>, id: nat)
    requires Feasible(s, more) && id < |s.sessions| && s.sessions[id].waiter.Dropped?
    ensures id < |Run(s, more).sessions| && Run(s, more).sessions[id].waiter.Dropped?
    decreases |more|
  {
    if more != [] {
      DroppedStaysDropped(Step(s, more[0]), more[1..], id);
    }
  }

  /** Dropping a waiter drops it, and interrupting a session is counted. */
  lemma DropsAndInterrupts(s: State, id: nat)
    requires id < |s.sessions|
    ensures Enabled(s, DropWaiter(id)) ==>
              |Step(s, DropWaiter(id)).sessions| == |s.sessions| && Step(s, DropWaiter(id)).sessions[id].waiter.Dropped?
    ensures Step(s, Interrupt(id)) == With(s, id, s.sessions[id].(interrupts := s.sessions[id].interrupts + 1))
  {
  }

  // ---- Starting and cancelling ---------------------------------------------

  /**
   A prepared turn that finds the slot free takes it and its worker starts under a watching
   supervisor; one that finds it taken is cancelled and changes nothing else.
   */
  lemma EnteringIs(events: seq<Event>, s: State, id: nat)
    requires Happens(events, s) && Enabled(s, Enter(id))
    ensures var t := Step(s, Enter(id));
            && |t.sessions| == |s.sessions|
            && (forall j | 0 <= j < |s.sessions| && j != id :: t.sessions[j] == s.sessions[j])
            && var x, y := s.sessions[id], t.sessions[id];
            if s.slot.None? then t.slot == Some(id) && y == x.(waiter := Waiting, worker := Working, supervisor := Watching)
            else t.slot == s.slot && y == x.(waiter := Returned(true), cancelled := true, setup := Cancelled)
  {
    Reached(events, s);
    if s.slot.Some? {
      assert SessionOk(s.slot, s.slot.value, s.sessions[s.slot.value]);
    }
  }

  /** Somebody asks this session to stop: outright, by dropping who waits for it, or as it is refused. */
  predicate AsksToStop(s: State, id: nat, e: Event) {
    || e == Cancel(id)
    || (e == DropWaiter(id) && id < |s.sessions| && s.sessions[id].waiter.Waiting?)
    || (e == Enter(id) && s.slot.Some?)
  }

  predicate AskedToStop(s: State, id: nat, events: seq<Event>)
    requires Feasible(s, events)
    decreases |events|
  {
    events != [] && (AsksToStop(s, id, events[0]) || AskedToStop(Step(s, events[0]), id, events[1..]))
  }

  ghost predicate IsCancelled(s: State, id: nat) { id < |s.sessions| && s.sessions[id].cancelled }

  lemma StopStep(s: State, e: Event, id: nat)
    requires Inv(s) && Enabled(s, e)
    ensures IsCancelled(Step(s, e), id) <==> IsCancelled(s, id) || AsksToStop(s, id, e)
  {
    if e.Enter? && s.slot.Some? {
      assert SessionOk(s.slot, s.slot.value, s.sessions[s.slot.value]);
    }
  }

  lemma {:induction false} StopRun(s: State, events: seq<Event>, id: nat)
    requires Inv(s) && Feasible(s, events)
    ensures IsCancelled(Run(s, events), id) <==> IsCancelled(s, id) || AskedToStop(s, id, events)
    decreases |events|
  {
    if events != [] {
      StopStep(s, events[0], id);
      StepKeeps(s, events[0]);
      StopRun(Step(s, events[0]), events[1..], id);
    }
  }

  /** A session is cancelled exactly if somebody asked it to stop. */
  lemma CancelledIff(events: seq<Event>, s: State, id: nat)
    requires Happens(events, s)
    ensures IsCancelled(s, id) <==> AskedToStop(Start(), id, events)
  {
    StopRun(Start(), events, id);
  }

  /** No session cancels its own set-up: the phase says cancelled only of a session told to stop. */
  ghost predicate SetupOk(s: State) {
    forall id | 0 <= id < |s.sessions| :: s.sessions[id].setup.Cancelled? ==> s.sessions[id].cancelled
  }

  lemma {:induction false} RunKeepsSetup(s: State, events: seq<Event>)
    requires SetupOk(s) && Feasible(s, events)
    ensures SetupOk(Run(s, events))
    decreases |events|
  {
    if events != [] {
      StepKeepsSetup(s, events[0]);
      RunKeepsSetup(Step(s, events[0]), events[1..]);
    }
  }

  lemma StepKeepsSetup(s: State, e: Event)
    requires SetupOk(s) && Enabled(s, e)
    ensures SetupOk(Step(s, e))
  {
  }

  /** A worker sets its resources up exactly if nobody has asked its session to stop. */
  lemma SetsUpIff(events: seq<Event>, s: State, id: nat)
    requires Happens(events, s) && Enabled(s, SetUp(id))
    ensures var t := Step(s, SetUp(id));
            && |t.sessions| == |s.sessions|
            && (t.sessions[id].setups == s.sessions[id].setups + 1 <==> !AskedToStop(Start(), id, events))
            && (t.sessions[id].setup.ResourcesOwned? <==> !AskedToStop(Start(), id, events))
  {
    CancelledIff(events, s, id);
    RunKeepsSetup(Start(), events);
    Reached(events, s);
    assert SessionOk(s.slot, id, s.sessions[id]);
  }
}
