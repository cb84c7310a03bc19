/**
 Which moves of the event loop the session machine can refuse.

 Exactly one: the drain arm's move to Ready. It is refused precisely when a
 canceled response.done arrived while the playback drain was armed in Responding
 and nothing since has restarted speech, interrupted playback, created or
 completed a response.
 */
module DrainSafety {
  import opened Options
  import opened Histories
  import opened SessionStates
  import opened ToolProtocol
  import opened ToolSafety
  import opened ToolTheorems

  /** A canceled response.done for the current response, met while playback drains. */
  ghost predicate CancelsDrain(s: Loop, e: Event) {
    && e.ResponseDone? && e.status.Canceled? && !Conflicts(s.active, e.responseId)
    && s.drainArmed && s.session.Responding?
  }

  /** The events after which a stale drain is gone: it is disarmed, or the session is responding again. */
  ghost predicate EndsDrain(e: Event) {
    || (e.InterruptChanged? && e.ok)
    || e.SpeechStarted?
    || e.ResponseCreated?
    || e.DrainElapsed?
    || (e.ResponseDone? && e.status.Completed? && DoneCalls(e.output) == [])
  }

  /** Whether a drain canceled during `events` is still armed after them. */
  ghost predicate Stale(cfg: Config, s: Loop, stale: bool, events: seq<Event>)
    requires Feasible(cfg, s, events)
    decreases |events|
  {
    if events == [] then stale
    else
      Stale(cfg, Step(cfg, s, events[0]),
            if CancelsDrain(s, events[0]) then true else if EndsDrain(events[0]) then false else stale, events[1..])
  }

  /** The loop-head situation that the drain arm cannot leave for Ready. */
  ghost predicate DrainsWhileCapturing(s: Loop) {
    s.drainArmed && s.session.Capturing?
  }

  lemma CanceledDrain(s: Loop, responseId: Text)
    requires s.verdict.Running? && LoopMoves(s.session)
    ensures var t := OnCanceledDone(s, responseId);
      && t.verdict.Running? && t.drainArmed == s.drainArmed
      && t.session == (if s.session.Responding? && !Conflicts(s.active, responseId) then Capturing else s.session)
  {
  }

  lemma EmptyDrain(s: Loop)
    requires s.verdict.Running? && LoopMoves(s.session)
    ensures var t := OnDoneWithoutCalls(s);
      t.verdict != Bailed(TransitionRefused) && (t.verdict.Running? ==> !t.session.Capturing?)
  {
  }

  /** A step that moves neither the session nor the drain, and does not leave the loop in good order. */
  ghost predicate LeavesDrain(s: Loop, t: Loop) {
    && t.verdict != Bailed(TransitionRefused) && !t.verdict.Returned?
    && t.drainArmed == s.drainArmed && t.session == s.session
  }

  lemma RefuseDrain(s: Loop, order: seq<CallId>, sends: nat)
    requires s.verdict.Running?
    ensures LeavesDrain(s, Refuse(s, order, sends))
  {
  }

  lemma CallsDrain(cfg: Config, s: Loop, done: seq<DoneCall>, order: seq<CallId>, routed: set<Text>, sends: nat)
    requires s.verdict.Running? && AllCalls(done) && forall id | id in order :: id in s.calls
    ensures LeavesDrain(s, OnCalls(cfg, s, done, order, routed, sends))
  {
    if Matches(cfg, done, s.calls) && ToolBudgetExhausted(cfg, s.iterations, s.toolCalls, |s.calls|) {
      RefuseDrain(s.(endAfter := s.endAfter || EndsConversation(done)), order, sends);
    }
  }

  lemma BatchDrain(cfg: Config, s: Loop, e: Event)
    requires s.verdict.Running? && e.ResponseDone? && Enabled(s, e)
    requires !e.status.Canceled? && !(e.status.Completed? && DoneCalls(e.output) == [])
    ensures LeavesDrain(s, DoneStep(cfg, s, e))
  {
    if e.status.Completed? && !Conflicts(s.active, e.responseId) {
      DoneCallsAreCalls(e.output);
      CallsDrain(cfg, s, DoneCalls(e.output), e.order, e.routed, e.sends);
    }
  }

  lemma DoneDrain(cfg: Config, s: Loop, e: Event)
    requires s.verdict.Running? && LoopMoves(s.session) && AtHead(cfg, s) && e.ResponseDone? && Enabled(s, e)
    ensures var t := DoneStep(cfg, s, e);
      && t.verdict != Bailed(TransitionRefused)
      && (t.verdict.Running? ==>
            (DrainsWhileCapturing(t) <==> CancelsDrain(s, e) || (DrainsWhileCapturing(s) && !EndsDrain(e))))
  {
    if e.status.Canceled? {
      CanceledDrain(s, e.responseId);
    } else if e.status.Completed? && DoneCalls(e.output) == [] {
      EmptyDrain(s);
    } else {
      BatchDrain(cfg, s, e);
    }
  }

  lemma PolledDrain(s: Loop, index: nat)
    requires s.verdict.Running? && index < |s.pending|
    ensures LeavesDrain(s, OnToolPolled(s, index))
  {
  }

  lemma FinishedDrain(cfg: Config, s: Loop, index: nat, sends: nat)
    requires s.verdict.Running? && index < |s.pending|
    ensures LeavesDrain(s, OnToolFinished(cfg, s, index, sends))
  {
  }

  lemma ArgumentsDrain(s: Loop, callId: CallId, responseId: Text, call: PendingFunctionCall)
    requires s.verdict.Running?
    ensures LeavesDrain(s, OnArgumentsDone(s, callId, responseId, call))
  {
  }

  lemma CancelDrain(s: Loop)
    requires s.verdict.Running? && LoopMoves(s.session)
    ensures OnCancel(s).verdict.Returned?
  {
  }

  lemma InterruptDrain(s: Loop)
    requires s.verdict.Running? && LoopMoves(s.session)
    ensures OnInterrupt(s).verdict.Running? && !OnInterrupt(s).drainArmed
  {
  }

  lemma ElapsedDrain(s: Loop)
    requires s.verdict.Running? && LoopMoves(s.session)
    ensures var t := OnDrainElapsed(s);
      && !t.drainArmed
      && (t.verdict == Bailed(TransitionRefused) <==> s.session.Capturing? && !s.endAfter)
  {
  }

  lemma CreatedDrain(s: Loop, responseId: Text)
    requires s.verdict.Running? && LoopMoves(s.session)
    requires s.session.Capturing? || s.session.Responding? || s.session.Ready?
    ensures var t := OnResponseCreated(s, responseId); t.verdict.Running? && t.session.Responding?
  {
  }

  lemma SpeechDrain(s: Loop)
    requires s.verdict.Running? && LoopMoves(s.session)
    ensures OnSpeechStarted(s).verdict.Running? && !OnSpeechStarted(s).drainArmed
  {
  }

  /** One step: what it does to the drain, and the only way a move is refused. */
  ghost predicate DrainStep(s: Loop, e: Event, t: Loop) {
    && (t.verdict == Bailed(TransitionRefused) <==> e.DrainElapsed? && s.session.Capturing? && !s.endAfter)
    && (t.verdict.Running? ==>
          (DrainsWhileCapturing(t) <==> CancelsDrain(s, e) || (DrainsWhileCapturing(s) && !EndsDrain(e))))
  }

  lemma MoveDrain(cfg: Config, s: Loop, e: Event)
    requires s.verdict.Running? && LoopMoves(s.session) && AtHead(cfg, s) && Enabled(s, e) && Moves(e)
    ensures DrainStep(s, e, Step(cfg, s, e))
  {
    match e
    case CancelChanged(_) => CancelDrain(s);
    case InterruptChanged(_) => InterruptDrain(s);
    case DrainElapsed => ElapsedDrain(s);
    case ResponseCreated(responseId) => CreatedDrain(s, responseId);
    case SpeechStarted => SpeechDrain(s);
    case IdleElapsed => assert Leave(s, ShuttingDown).verdict.Returned?;
  }

  lemma ToolDrain(cfg: Config, s: Loop, e: Event)
    requires s.verdict.Running? && Enabled(s, e) && (e.ToolPolled? || e.ToolFinished? || e.ArgumentsDone?)
    ensures DrainStep(s, e, Step(cfg, s, e))
  {
    match e
    case ToolPolled(index) => PolledDrain(s, index);
    case ToolFinished(index, sends) => FinishedDrain(cfg, s, index, sends);
    case ArgumentsDone(callId, responseId, call) => ArgumentsDrain(s, callId, responseId, call);
  }

  lemma StepDrain(cfg: Config, s: Loop, e: Event)
    requires s.verdict.Running? && LoopMoves(s.session) && AtHead(cfg, s) && Enabled(s, e)
    ensures DrainStep(s, e, Step(cfg, s, e))
  {
    if e.ResponseDone? {
      DoneDrain(cfg, s, e);
    } else if Moves(e) {
      MoveDrain(cfg, s, e);
    } else if e.ToolPolled? || e.ToolFinished? || e.ArgumentsDone? {
      ToolDrain(cfg, s, e);
    }
  }

  lemma {:induction false} RunDrain(cfg: Config, s: Loop, stale: bool, events: seq<Event>)
    requires Inv(cfg, s) && Feasible(cfg, s, events)
    requires s.verdict.Running? && (DrainsWhileCapturing(s) <==> stale)
    ensures Run(cfg, s, events).verdict.Running? ==>
              (DrainsWhileCapturing(Run(cfg, s, events)) <==> Stale(cfg, s, stale, events))
    decreases |events|
  {
    if events != [] {
      var e := events[0];
      var t := Step(cfg, s, e);
      HeadFacts(cfg, s);
      StepDrain(cfg, s, e);
      StepKeeps(cfg, s, e);
      if t.verdict.Running? {
        RunDrain(cfg, t, if CancelsDrain(s, e) then true else if EndsDrain(e) then false else stale, events[1..]);
      } else {
        assert events[1..] == [];
      }
    }
  }

  /**
   For every run and every next event: the session machine refuses a move exactly
   when the drain elapses on a stale drain and no end of conversation is pending.
   */
  lemma RefusedExactlyOnStaleDrain(cfg: Config, events: seq<Event>, s: Loop, e: Event)
    requires Happens(cfg, events, s) && s.verdict.Running? && Enabled(s, e)
    ensures Step(cfg, s, e).verdict == Bailed(TransitionRefused) <==>
            e.DrainElapsed? && Stale(cfg, Start(), false, events) && !s.endAfter
    ensures s.session.Capturing? || s.session.Responding? || s.session.Ready?
  {
    Reached(cfg, events, s);
    HeadFacts(cfg, s);
    StartOk(cfg);
    RunDrain(cfg, Start(), false, events);
    StepDrain(cfg, s, e);
  }

  /** No canceled response.done met a drain in this run. */
  ghost predicate NeverCancelsDrain(cfg: Config, s: Loop, events: seq<Event>)
    requires Feasible(cfg, s, events)
    decreases |events|
  {
    events == [] ||
    (!CancelsDrain(s, events[0]) && NeverCancelsDrain(cfg, Step(cfg, s, events[0]), events[1..]))
  }

  lemma {:induction false} NotStale(cfg: Config, s: Loop, events: seq<Event>)
    requires Feasible(cfg, s, events) && NeverCancelsDrain(cfg, s, events)
    ensures !Stale(cfg, s, false, events)
    decreases |events|
  {
    if events != [] {
      NotStale(cfg, Step(cfg, s, events[0]), events[1..]);
    }
  }

  /** Without such a response.done every move the loop attempts is accepted. */
  lemma AllMovesAccepted(cfg: Config, events: seq<Event>, s: Loop, e: Event)
    requires Happens(cfg, events, s) && s.verdict.Running? && Enabled(s, e)
    requires NeverCancelsDrain(cfg, Start(), events)
    ensures Step(cfg, s, e).verdict != Bailed(TransitionRefused)
  {
    NotStale(cfg, Start(), events);
    RefusedExactlyOnStaleDrain(cfg, events, s, e);
  }

  /** At this loop head the drain can elapse, and its move is refused exactly if `refused`. */
  ghost predicate RefusesDrain(cfg: Config, t: Loop, refused: bool) {
    && t.verdict.Running? && Enabled(t, DrainElapsed)
    && (Step(cfg, t, DrainElapsed).verdict == Bailed(TransitionRefused) <==> refused)
  }

  /** With one, the very next elapsing of the drain is refused unless the conversation is ending. */
  lemma CanceledDrainIsRefused(cfg: Config, events: seq<Event>, s: Loop, e: Event)
    requires Happens(cfg, events, s) && s.verdict.Running? && Enabled(s, e) && CancelsDrain(s, e)
    ensures RefusesDrain(cfg, Step(cfg, s, e), !s.endAfter)
  {
    Reached(cfg, events, s);
    HeadFacts(cfg, s);
    CanceledDrain(s, e.responseId);
    StepDrain(cfg, s, e);
    StepKeeps(cfg, s, e);
    var t := Step(cfg, s, e);
    HeadFacts(cfg, t);
    StepDrain(cfg, t, DrainElapsed);
  }

  // ---- A run with a stale drain --------------------------------------------

  const DoneEmpty := ResponseDone("r", Completed, [], [], {}, 0)
  const CanceledEmpty := ResponseDone("r", Canceled, [], [], {}, 0)

  /** The loop while the response speaks, once its drain is armed, and once it was canceled. */
  const SpeakingLoop: Loop :=
    Start().(session := Responding, active := Some("r"), responseArmed := true, idleArmed := false,
             log := Then(Empty, BeginResponse))
  const DrainingLoop: Loop := SpeakingLoop.(active := None, responseArmed := false, drainArmed := true)
  const StaleLoop: Loop :=
    DrainingLoop.(session := Capturing, log := Then(DrainingLoop.log, Calls(Dropped, {})))

  lemma CreatedSpeaks(cfg: Config)
    ensures Step(cfg, Start(), ResponseCreated("r")) == SpeakingLoop
  {
  }

  lemma DoneDrains(cfg: Config)
    ensures Enabled(SpeakingLoop, DoneEmpty) && Step(cfg, SpeakingLoop, DoneEmpty) == DrainingLoop
  {
  }

  lemma CanceledCaptures(cfg: Config)
    ensures Enabled(DrainingLoop, CanceledEmpty) && Step(cfg, DrainingLoop, CanceledEmpty) == StaleLoop
  {
    assert DrainingLoop.calls.Keys == {};
  }

  lemma ElapsedIsRefused(cfg: Config)
    ensures Enabled(StaleLoop, DrainElapsed)
    ensures Step(cfg, StaleLoop, DrainElapsed).verdict == Bailed(TransitionRefused)
  {
  }

  /** A server can do this: a response is created and done, and a cancel for it follows. */
  lemma StaleDrainExists(cfg: Config)
    ensures var events := [ResponseCreated("r"), DoneEmpty, CanceledEmpty, DrainElapsed];
      Feasible(cfg, Start(), events) && Run(cfg, Start(), events).verdict == Bailed(TransitionRefused)
  {
    CreatedSpeaks(cfg);
    DoneDrains(cfg);
    CanceledCaptures(cfg);
    ElapsedIsRefused(cfg);
    var events := [ResponseCreated("r"), DoneEmpty, CanceledEmpty, DrainElapsed];
    assert events[1..] == [DoneEmpty, CanceledEmpty, DrainElapsed];
    assert events[1..][1..] == [CanceledEmpty, DrainElapsed];
    assert events[1..][1..][1..] == [DrainElapsed];
    assert events[1..][1..][1..][1..] == [];
    var refused := Step(cfg, StaleLoop, DrainElapsed);
    assert Feasible(cfg, refused, []) && Run(cfg, refused, []) == refused;
    assert Feasible(cfg, StaleLoop, [DrainElapsed]) && Run(cfg, StaleLoop, [DrainElapsed]) == refused;
    assert Feasible(cfg, DrainingLoop, [CanceledEmpty, DrainElapsed]);
    assert Run(cfg, DrainingLoop, [CanceledEmpty, DrainElapsed]) == refused;
    assert Feasible(cfg, SpeakingLoop, events[1..]) && Run(cfg, SpeakingLoop, events[1..]) == refused;
  }
}
