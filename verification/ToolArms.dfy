/**
 How the event loop goes on: which calls are received, routed, answered and dropped, when
 a tool's effect is recorded, which events end the loop, and what arms its timers.
 */
module ToolArms {
  import opened Options
  import opened Histories
  import opened SessionStates
  import opened ToolProtocol
  import opened ToolSafety
  import opened ToolTheorems
  import opened ToolOutcomes

  ghost predicate AtLoopHead(cfg: Config, events: seq<Event>, s: Loop) {
    Happens(cfg, events, s) && s.verdict.Running?
  }

  lemma HeadIs(cfg: Config, events: seq<Event>, s: Loop)
    requires AtLoopHead(cfg, events, s)
    ensures Inv(cfg, s) && AtHead(cfg, s) && LoopMoves(s.session)
  {
    Reached(cfg, events, s);
    HeadFacts(cfg, s);
  }

  // ---- Receiving -----------------------------------------------------------

  /** The sizes that ids, names and arguments may have, in bytes. */
  predicate SizesFit(callId: CallId, call: PendingFunctionCall) {
    1 <= |callId.text| <= 256 && 1 <= |call.name| <= 256 && |call.arguments| <= 65536
  }

  /**
   A call is received exactly if no tool is running, no other response is being followed,
   its id was never received before on this connection, and its sizes fit; anything else
   is a violation.
   */
  lemma ReceivedIff(cfg: Config, events: seq<Event>, s: Loop, callId: CallId, responseId: Text, call: PendingFunctionCall)
    requires AtLoopHead(cfg, events, s)
    ensures var t := Step(cfg, s, ArgumentsDone(callId, responseId, call));
            if s.pending == [] && Follows(s, responseId) && Times(s.log, Received, callId) == 0 && SizesFit(callId, call)
            then t == s.(active := Some(responseId), seen := s.seen + {callId}, calls := s.calls[callId := call],
                         log := Then(s.log, Calls(Received, {callId})))
            else Ends(s, t, ProtocolViolation)
  {
    HeadIs(cfg, events, s);
    assert Good(cfg, s, callId);
  }

  // ---- Routing and effects -------------------------------------------------

  /** Where a call goes: to MCP exactly if it is well formed and its name is routed there. */
  predicate RoutedRight(cfg: Config, routed: set<Text>, f: ToolFuture) {
    && (f.route.Native? <==> cfg.isJsonObject(f.call.arguments) && f.call.name in routed)
    && (f.route.Generic? <==> cfg.isJsonObject(f.call.arguments) && f.call.name !in routed)
    && !f.started
  }

  lemma FuturesRouted(cfg: Config, routed: set<Text>, done: seq<DoneCall>, futures: seq<ToolFuture>)
    requires OneFutureEach(cfg, routed, done, futures)
    ensures forall f | f in futures :: RoutedRight(cfg, routed, f)
  {
    forall f | f in futures ensures RoutedRight(cfg, routed, f) {
      var i :| 0 <= i < |done| && f == Future(cfg, routed, done[i].item.callId, Listed(done, i));
    }
  }

  /**
   A batch within the limits starts one tool for each call it lists, with what it lists, and
   each goes to MCP exactly if its arguments are an object and its name is routed there.
   */
  lemma RoutedCallsGoToMcp(cfg: Config, events: seq<Event>, s: Loop, e: Event)
    requires AtLoopHead(cfg, events, s) && Enabled(s, e) && ListsCalls(s, e)
    requires ListsReceived(s, e) && WithinLimits(cfg, s, e)
    ensures OneFutureEach(cfg, e.routed, DoneCalls(e.output), Step(cfg, s, e).pending)
    ensures forall f | f in Step(cfg, s, e).pending :: RoutedRight(cfg, e.routed, f)
  {
    ExecutedIff(cfg, events, s, e);
    DispatchedCallsAreListed(cfg, events, s, e);
    FuturesRouted(cfg, e.routed, DoneCalls(e.output), Step(cfg, s, e).pending);
  }

  /** How often a running tool's call has had its effect: a generic one at once, one of MCP's when first polled. */
  ghost function EffectsOf(f: ToolFuture): nat {
    match f.route
    case Native => One(f.started)
    case Generic => 1
    case Invalid => 0
  }

  ghost predicate EffectsRecorded(s: Loop) {
    forall i | 0 <= i < |s.pending| :: Times(s.log, Effect, s.pending[i].callId) == EffectsOf(s.pending[i])
  }

  /** Effects only change where a tool starts or is polled. */
  lemma SameEffects(s: Loop, t: Loop)
    requires EffectsRecorded(s) && t.pending == s.pending
    requires forall id :: Times(t.log, Effect, id) == Times(s.log, Effect, id)
    ensures EffectsRecorded(t)
  {
  }

  lemma PolledEffects(cfg: Config, s: Loop, index: nat)
    requires EffectsRecorded(s) && PendingOk(s) && Enabled(s, ToolPolled(index))
    ensures EffectsRecorded(OnToolPolled(s, index)) && OnToolPolled(s, index).endAfter == s.endAfter
  {
    var t := OnToolPolled(s, index);
    forall i | 0 <= i < |t.pending| ensures Times(t.log, Effect, t.pending[i].callId) == EffectsOf(t.pending[i]) {
      assert i != index ==> s.pending[i].callId != s.pending[index].callId;
      assert Times(s.log, Effect, s.pending[i].callId) == EffectsOf(s.pending[i]);
    }
  }

  lemma FinishedEffects(s: Loop, index: nat, sends: nat, t: Loop)
    requires EffectsRecorded(s) && index < |s.pending| && FinishedCall(s, index, sends, t)
    ensures EffectsRecorded(t)
  {
    forall i | 0 <= i < |t.pending| ensures Times(t.log, Effect, t.pending[i].callId) == EffectsOf(t.pending[i]) {
      assert t.pending[i] == s.pending[if i < index then i else i + 1];
    }
  }

  lemma DispatchEffects(cfg: Config, s: Loop, order: seq<CallId>, routed: set<Text>, t: Loop)
    requires DrainOrder(order, s.calls) && t.pending == Futures(cfg, routed, s.calls, order)
    requires t.log == Then(Then(s.log, Calls(Executed, s.calls.Keys)), Calls(Effect, EagerIds(cfg, routed, s.calls)))
    requires forall id | id in s.calls :: Times(s.log, Effect, id) == 0
    ensures EffectsRecorded(t)
  {
    forall i | 0 <= i < |t.pending| ensures Times(t.log, Effect, t.pending[i].callId) == EffectsOf(t.pending[i]) {
      assert order[i] in order;
      assert t.pending[i] == Future(cfg, routed, order[i], s.calls[order[i]]);
      assert order[i] in EagerIds(cfg, routed, s.calls) <==> t.pending[i].route.Generic?;
    }
  }

  // ---- Interrupting and cancelling -----------------------------------------

  /** Tools, budgets and seen ids are left alone. */
  ghost predicate ToolsStay(s: Loop, t: Loop) {
    && t.pending == s.pending && t.waiting == s.waiting && t.seen == s.seen
    && t.iterations == s.iterations && t.toolCalls == s.toolCalls && t.refusals == s.refusals
    && t.effects == s.effects && t.endAfter == s.endAfter
  }

  /** The response is no longer followed and the calls received for it are dropped. */
  ghost predicate Forgets(s: Loop, t: Loop) {
    && t.active.None? && t.calls == map[] && !t.responseArmed
    && Records(s, t, Dropped, s.calls.Keys)
  }

  lemma Interrupted(s: Loop, t: Loop)
    requires s.verdict.Running? && LoopMoves(s.session) && t == OnInterrupt(s)
    requires s.session.Capturing? || s.session.Responding? || s.session.Ready?
    ensures t.verdict.Running? && t.session.Capturing? && !t.drainArmed && t.idleArmed && ToolsStay(s, t)
    ensures s.session.Responding? ==>
              var log := Then(s.log, InterruptPlayback);
              && t.active.None? && t.calls == map[] && !t.responseArmed
              && t.log == Then(if s.active.Some? then Then(log, ResponseCancel(None)) else log,
                               Calls(Dropped, s.calls.Keys))
    ensures !s.session.Responding? ==>
              && t.active == s.active && t.calls == s.calls && t.responseArmed == s.responseArmed
              && t.log == Then(s.log, InterruptPlayback)
  {
  }

  /**
   An accepted interrupt stops playback and goes back to capturing with the idle timer on.
   While a response is under way it is given up, the server is told if it was known, and
   the calls received for it are dropped; tools that run are left to finish.
   */
  lemma InterruptStopsTheResponse(cfg: Config, events: seq<Event>, s: Loop)
    requires AtLoopHead(cfg, events, s)
    ensures var t := Step(cfg, s, InterruptChanged(true));
            && t.verdict.Running? && t.session.Capturing? && !t.drainArmed && t.idleArmed && ToolsStay(s, t)
            && if s.session.Responding? then
                 && Forgets(s, t)
                 && t.log.before == (if s.active.Some? then Then(Then(s.log, InterruptPlayback), ResponseCancel(None))
                                     else Then(s.log, InterruptPlayback))
               else t.active == s.active && t.calls == s.calls && t.log == Then(s.log, InterruptPlayback)
  {
    HeadIs(cfg, events, s);
    var t := Step(cfg, s, InterruptChanged(true));
    Interrupted(s, t);
    if s.session.Responding? {
      DropsRecorded(s, t);
    }
  }

  lemma DropsRecorded(s: Loop, t: Loop)
    requires t.log.Then? && t.log.last == Calls(Dropped, s.calls.Keys) && Quiet(s.log, t.log.before)
    ensures Records(s, t, Dropped, s.calls.Keys)
  {
    QuietBooks(s.log, t.log.before);
    forall id ensures Times(t.log, Dropped, id) == Times(s.log, Dropped, id) + One(id in s.calls.Keys) {
      BatchTimes(t.log.before, Dropped, s.calls.Keys, id);
    }
  }

  lemma Canceled(s: Loop, responseId: Text, t: Loop)
    requires s.verdict.Running? && LoopMoves(s.session) && t == OnCanceledDone(s, responseId)
    ensures !Follows(s, responseId) ==> t == s
    ensures Follows(s, responseId) ==>
              && t.verdict.Running? && t.session == (if s.session.Responding? then Capturing else s.session)
              && t.active.None? && t.calls == map[] && !t.responseArmed
              && t.log == Then(s.log, Calls(Dropped, s.calls.Keys))
              && ToolsStay(s, t) && t.drainArmed == s.drainArmed && t.idleArmed == s.idleArmed
  {
  }

  /** A canceled response is forgotten with the calls received for it; somebody else's is ignored. */
  lemma CanceledIsForgotten(cfg: Config, events: seq<Event>, s: Loop, e: Event)
    requires AtLoopHead(cfg, events, s) && e.ResponseDone? && e.status.Canceled? && Enabled(s, e)
    ensures var t := Step(cfg, s, e);
            if Follows(s, e.responseId) then
              && t.verdict.Running? && Forgets(s, t) && ToolsStay(s, t)
              && t.session == (if s.session.Responding? then Capturing else s.session)
              && t.drainArmed == s.drainArmed && t.idleArmed == s.idleArmed
            else t == s
  {
    HeadIs(cfg, events, s);
    Canceled(s, e.responseId, Step(cfg, s, e));
    if Follows(s, e.responseId) {
      DropsRecorded(s, Step(cfg, s, e));
    }
  }

  /** A cancelled session ends in order, and the response under way is cancelled first. */
  lemma CancelEnds(cfg: Config, events: seq<Event>, s: Loop)
    requires AtLoopHead(cfg, events, s)
    ensures var t := Step(cfg, s, CancelChanged(true));
            && t.verdict.Returned? && t.session.ShuttingDown?
            && t.log == (if s.active.Some? then Then(s.log, ResponseCancel(s.active)) else s.log)
  {
    HeadIs(cfg, events, s);
  }

  // ---- Responses -----------------------------------------------------------

  /** A response that begins is followed, plays, and stops the idle timer; its deadline runs. */
  lemma CreatedIsFollowed(cfg: Config, events: seq<Event>, s: Loop, responseId: Text)
    requires AtLoopHead(cfg, events, s)
    ensures Step(cfg, s, ResponseCreated(responseId)) ==
            s.(session := Responding, active := Some(responseId), idleArmed := false, responseArmed := true,
               log := Then(s.log, BeginResponse))
  {
    HeadIs(cfg, events, s);
  }

  /** Speech stops playback and every timer, and the session captures. */
  lemma SpeechIsCaptured(cfg: Config, events: seq<Event>, s: Loop)
    requires AtLoopHead(cfg, events, s)
    ensures Step(cfg, s, SpeechStarted) ==
            s.(session := Capturing, drainArmed := false, idleArmed := false, responseArmed := false,
               log := Then(s.log, InterruptPlayback))
  {
    HeadIs(cfg, events, s);
  }

  /** A response that ends without calls is played out; a received call left over is a violation. */
  lemma EmptyResponsePlaysOut(cfg: Config, events: seq<Event>, s: Loop, e: Event)
    requires AtLoopHead(cfg, events, s) && e.ResponseDone? && Enabled(s, e)
    requires e.status.Completed? && Follows(s, e.responseId) && DoneCalls(e.output) == []
    ensures var t := Step(cfg, s, e);
            if s.calls != map[] then Ends(s, t, ProtocolViolation)
            else t == s.(session := if s.session.Ready? then Ready else Responding, active := None,
                         responseArmed := false, drainArmed := true)
  {
    HeadIs(cfg, events, s);
    PlaysOut(s, OnDoneWithoutCalls(s));
  }

  lemma PlaysOut(s: Loop, t: Loop)
    requires s.verdict.Running? && LoopMoves(s.session) && t == OnDoneWithoutCalls(s)
    requires s.session.Capturing? || s.session.Responding? || s.session.Ready?
    ensures if s.calls != map[] then Ends(s, t, ProtocolViolation)
            else t == s.(session := if s.session.Ready? then Ready else Responding, active := None,
                         responseArmed := false, drainArmed := true)
  {
  }

  /** A response that failed, or completed while another is followed, is a violation. */
  lemma OtherDoneIsViolation(cfg: Config, events: seq<Event>, s: Loop, e: Event)
    requires AtLoopHead(cfg, events, s) && e.ResponseDone? && Enabled(s, e)
    requires !e.status.Canceled? && !(e.status.Completed? && Follows(s, e.responseId))
    ensures Ends(s, Step(cfg, s, e), ProtocolViolation)
  {
  }

  /** A finished call is answered; the last one of its batch asks for the next response. */
  lemma FinishedCallIsAnswered(cfg: Config, events: seq<Event>, s: Loop, index: nat, sends: nat)
    requires AtLoopHead(cfg, events, s) && Enabled(s, ToolFinished(index, sends))
    ensures var t := Step(cfg, s, ToolFinished(index, sends));
            && FinishedCall(s, index, sends, t)
            && Records(s, t, Output, if sends > 0 then {s.pending[index].callId} else {})
            && (Creates(t.log) == Creates(s.log) + 1 <==> |s.pending| == 1 && sends >= 2)
            && (t.verdict.Running? && |s.pending| == 1 ==> t.active.None? && t.responseArmed)
  {
    HeadIs(cfg, events, s);
    FinishedShape(cfg, s, index, sends);
    FinishedRecords(s, index, sends, Step(cfg, s, ToolFinished(index, sends)));
  }

  lemma FinishedRecords(s: Loop, index: nat, sends: nat, t: Loop)
    requires index < |s.pending| && FinishedCall(s, index, sends, t)
    ensures Records(s, t, Output, if sends > 0 then {s.pending[index].callId} else {})
    ensures Creates(t.log) == Creates(s.log) + One(|s.pending| == 1 && sends >= 2)
  {
    var ids := {s.pending[index].callId};
    if sends > 0 {
      forall id ensures Times(t.log, Output, id) == Times(s.log, Output, id) + One(id in ids) {
        BatchTimes(s.log, Output, ids, id);
      }
    }
  }

  // ---- Every effect is recorded --------------------------------------------

  lemma DoneEffects(cfg: Config, s: Loop, e: Event)
    requires Inv(cfg, s) && s.verdict.Running? && EffectsRecorded(s) && e.ResponseDone? && Enabled(s, e)
    requires Step(cfg, s, e).verdict.Running?
    ensures EffectsRecorded(Step(cfg, s, e))
  {
    var t := Step(cfg, s, e);
    HeadFacts(cfg, s);
    if ListsCalls(s, e) {
      BatchHasShape(cfg, s, e);
      BatchEffects(cfg, s, e, t);
    } else if e.status.Canceled? {
      Canceled(s, e.responseId, t);
      SameEffects(s, t);
    } else {
      PlaysOut(s, OnDoneWithoutCalls(s));
    }
  }

  lemma BatchEffects(cfg: Config, s: Loop, e: Event, t: Loop)
    requires Inv(cfg, s) && s.verdict.Running? && EffectsRecorded(s) && ListsCalls(s, e) && Enabled(s, e)
    requires AllCalls(DoneCalls(e.output)) && t.verdict.Running?
    requires CallsShape(cfg, s, DoneCalls(e.output), e.order, e.routed, e.sends, t)
    ensures EffectsRecorded(t)
  {
    HeadFacts(cfg, s);
    assert s.calls != map[] && s.pending == [];
    if t.waiting && t.iterations == s.iterations + 1 && ExecutedBatch(cfg, s, e.order, e.routed, t) {
      forall id | id in s.calls ensures Times(s.log, Effect, id) == 0 {
        assert Good(cfg, s, id);
      }
      DispatchEffects(cfg, s, e.order, e.routed, t);
    }
  }

  lemma MovesQuietly(cfg: Config, s: Loop, e: Event)
    requires s.verdict.Running? && LoopMoves(s.session) && Enabled(s, e)
    requires e.SpeechStarted? || e.ResponseCreated? || e.DrainElapsed?
    ensures Step(cfg, s, e).pending == s.pending && Quiet(s.log, Step(cfg, s, e).log)
    ensures Step(cfg, s, e).endAfter == s.endAfter
  {
  }

  /** The events that end the loop whatever its state, and the error they end it with. */
  function Fatal(e: Event): Option<LoopError> {
    match e
    case ResponseElapsed => Some(ResponseTimeout)
    case CaptureEnded => Some(CaptureStopped)
    case TransportLost => Some(TransportError)
    case Undecodable => Some(ProtocolViolation)
    case AudioDelta => Some(ProtocolViolation)
    case ServerError => Some(ProtocolViolation)
    case _ => None
  }

  /** The events that leave everything but the response followed and its deadline as it is. */
  predicate Harmless(e: Event) {
    || e.AudioActivity? || e.TransportOther? || e.OtherEvent? || e.TranscriptDone? || e.SpeechStopped?
    || e == CancelChanged(false) || e == InterruptChanged(false)
  }

  /** Failures end the loop with their error and nothing recorded; the harmless events touch no call. */
  lemma FatalEndsHarmlessStays(cfg: Config, s: Loop, e: Event)
    requires s.verdict.Running? && Enabled(s, e)
    ensures Fatal(e).Some? ==> Ends(s, Step(cfg, s, e), Fatal(e).value)
    ensures Harmless(e) ==>
              Step(cfg, s, e) == s.(active := if e.TranscriptDone? then Some(e.responseId) else s.active,
                                    responseArmed := s.responseArmed || e.SpeechStopped?)
  {
  }

  lemma QuietArm(cfg: Config, s: Loop, e: Event)
    requires s.verdict.Running? && LoopMoves(s.session) && Enabled(s, e) && Step(cfg, s, e).verdict.Running?
    requires !e.ResponseDone? && !e.ArgumentsDone? && !e.ToolPolled? && !e.ToolFinished? && !e.InterruptChanged?
    ensures Step(cfg, s, e).pending == s.pending && Quiet(s.log, Step(cfg, s, e).log)
  {
    if e.SpeechStarted? || e.ResponseCreated? || e.DrainElapsed? {
      MovesQuietly(cfg, s, e);
    } else if Harmless(e) || Fatal(e).Some? {
      FatalEndsHarmlessStays(cfg, s, e);
    } else {
      LeavesNow(s);
    }
  }

  lemma LeavesNow(s: Loop)
    requires LoopMoves(s.session)
    ensures OnCancel(s).verdict.Returned? && Leave(s, ShuttingDown).verdict.Returned?
  {
  }

  lemma ReceivedEffects(s: Loop, callId: CallId, responseId: Text, call: PendingFunctionCall)
    requires EffectsRecorded(s)
    ensures EffectsRecorded(OnArgumentsDone(s, callId, responseId, call))
    ensures OnArgumentsDone(s, callId, responseId, call).endAfter == s.endAfter
  {
    SameEffects(s, OnArgumentsDone(s, callId, responseId, call));
  }

  lemma InterruptedEffects(s: Loop, t: Loop)
    requires EffectsRecorded(s) && t.pending == s.pending
    requires || Quiet(s.log, t.log)
             || (t.log.Then? && t.log.last == Calls(Dropped, s.calls.Keys) && Quiet(s.log, t.log.before))
    ensures EffectsRecorded(t)
  {
    if Quiet(s.log, t.log) {
      QuietBooks(s.log, t.log);
    } else {
      QuietBooks(s.log, t.log.before);
    }
    SameEffects(s, t);
  }

  lemma ArmEffects(cfg: Config, s: Loop, e: Event)
    requires Inv(cfg, s) && s.verdict.Running? && EffectsRecorded(s) && Enabled(s, e) && !e.ResponseDone?
    requires Step(cfg, s, e).verdict.Running?
    ensures EffectsRecorded(Step(cfg, s, e))
  {
    HeadFacts(cfg, s);
    if e.ToolPolled? {
      PolledEffects(cfg, s, e.index);
    } else if e.ToolFinished? {
      FinishedShape(cfg, s, e.index, e.sends);
      FinishedEffects(s, e.index, e.sends, Step(cfg, s, e));
    } else if e.ArgumentsDone? {
      ReceivedEffects(s, e.callId, e.responseId, e.call);
    } else if e.InterruptChanged? {
      Interrupted(s, OnInterrupt(s));
      InterruptedEffects(s, OnInterrupt(s));
    } else {
      QuietArm(cfg, s, e);
      InterruptedEffects(s, Step(cfg, s, e));
    }
  }

  lemma {:induction false} RunEffects(cfg: Config, s: Loop, events: seq<Event>)
    requires Inv(cfg, s) && EffectsRecorded(s) && Feasible(cfg, s, events)
    ensures Run(cfg, s, events).verdict.Running? ==> EffectsRecorded(Run(cfg, s, events))
    decreases |events|
  {
    if events != [] {
      var t := Step(cfg, s, events[0]);
      StepKeeps(cfg, s, events[0]);
      if t.verdict.Running? {
        if events[0].ResponseDone? {
          DoneEffects(cfg, s, events[0]);
        } else {
          ArmEffects(cfg, s, events[0]);
        }
        RunEffects(cfg, t, events[1..]);
      }
    }
  }

  /**
   Nothing has an effect unnoticed: at every loop head each running tool's call is recorded
   as effective exactly if its work may have begun, and then a reconnect is ruled out.
   */
  lemma EffectsAreRecorded(cfg: Config, events: seq<Event>, s: Loop, i: nat)
    requires AtLoopHead(cfg, events, s) && i < |s.pending|
    ensures Times(s.log, Effect, s.pending[i].callId) == EffectsOf(s.pending[i])
    ensures EffectsOf(s.pending[i]) > 0 ==> s.effects
  {
    StartOk(cfg);
    RunEffects(cfg, Start(), events);
    CallIdsUsedOnce(cfg, events, s, s.pending[i].callId);
  }

  // ---- Ending --------------------------------------------------------------

  /** A response asked to end the conversation: one of the calls it lists, exactly the received ones, says so. */
  ghost predicate AsksToEnd(cfg: Config, s: Loop, e: Event) {
    ProperBatch(cfg, s, e) &&
    exists i | 0 <= i < |e.output| :: e.output[i].FunctionCall? && e.output[i].name == "end_conversation"
  }

  /** Somewhere in these events a response asked to end the conversation. */
  ghost predicate AskedToEnd(cfg: Config, s: Loop, events: seq<Event>)
    requires Feasible(cfg, s, events)
    decreases |events|
  {
    events != [] && (AsksToEnd(cfg, s, events[0]) || AskedToEnd(cfg, Step(cfg, s, events[0]), events[1..]))
  }

  lemma EndsByName(output: seq<OutputItem>)
    requires AllCalls(DoneCalls(output))
    ensures EndsConversation(DoneCalls(output)) <==>
            exists i | 0 <= i < |output| :: output[i].FunctionCall? && output[i].name == "end_conversation"
  {
    var done := DoneCalls(output);
    if i :| 0 <= i < |done| && done[i].item.name == "end_conversation" {
      assert done[i] in done;
      DoneCallsListed(output, done[i]);
      assert output[done[i].outputIndex].FunctionCall?;
    }
    if i :| 0 <= i < |output| && output[i].FunctionCall? && output[i].name == "end_conversation" {
      DoneCallsListed(output, DoneCall(i, output[i]));
      assert DoneCall(i, output[i]) in done;
    }
  }

  lemma CallsEnd(cfg: Config, s: Loop, done: seq<DoneCall>, order: seq<CallId>, routed: set<Text>, sends: nat)
    requires AllCalls(done) && forall id | id in order :: id in s.calls
    ensures var t := OnCalls(cfg, s, done, order, routed, sends);
            t.verdict.Running? ==> t.endAfter == (s.endAfter || EndsConversation(done))
  {
    if Matches(cfg, done, s.calls) {
      RefuseEnds(s.(endAfter := s.endAfter || EndsConversation(done)), order, sends);
    }
  }

  lemma RefuseEnds(s: Loop, order: seq<CallId>, sends: nat)
    ensures Refuse(s, order, sends).endAfter == s.endAfter
  {
  }

  lemma BatchEnds(cfg: Config, s: Loop, e: Event)
    requires s.verdict.Running? && Enabled(s, e) && ListsCalls(s, e) && Step(cfg, s, e).verdict.Running?
    ensures Step(cfg, s, e).endAfter == (s.endAfter || AsksToEnd(cfg, s, e))
  {
    BatchHasShape(cfg, s, e);
    EndsByName(e.output);
    ProperIsMatch(cfg, s, e);
    CallsEnd(cfg, s, DoneCalls(e.output), e.order, e.routed, e.sends);
  }

  lemma DoneEnds(cfg: Config, s: Loop, e: Event)
    requires AtHead(cfg, s) && LoopMoves(s.session) && s.verdict.Running? && Enabled(s, e) && e.ResponseDone?
    requires Step(cfg, s, e).verdict.Running?
    ensures Step(cfg, s, e).endAfter == (s.endAfter || AsksToEnd(cfg, s, e))
  {
    if ListsCalls(s, e) {
      BatchEnds(cfg, s, e);
    } else if e.status.Canceled? {
      Canceled(s, e.responseId, OnCanceledDone(s, e.responseId));
    } else {
      PlaysOut(s, OnDoneWithoutCalls(s));
    }
  }

  lemma OthersDoNotEnd(cfg: Config, s: Loop, e: Event)
    requires AtHead(cfg, s) && LoopMoves(s.session) && s.verdict.Running? && Enabled(s, e) && !e.ResponseDone?
    requires EffectsRecorded(s) && Step(cfg, s, e).verdict.Running?
    ensures Step(cfg, s, e).endAfter == s.endAfter
  {
    if e.ToolPolled? {
      PolledEffects(cfg, s, e.index);
    } else if e.ToolFinished? {
      FinishedShape(cfg, s, e.index, e.sends);
    } else if e.ArgumentsDone? {
      ReceivedEffects(s, e.callId, e.responseId, e.call);
    } else if e.SpeechStarted? || e.ResponseCreated? || e.DrainElapsed? {
      MovesQuietly(cfg, s, e);
    } else if Harmless(e) || Fatal(e).Some? {
      FatalEndsHarmlessStays(cfg, s, e);
    } else if e.InterruptChanged? {
      Interrupted(s, OnInterrupt(s));
    }
  }

  lemma {:induction false} RunEnds(cfg: Config, s: Loop, events: seq<Event>)
    requires Inv(cfg, s) && EffectsRecorded(s) && s.verdict.Running?
    requires Feasible(cfg, s, events) && Run(cfg, s, events).verdict.Running?
    ensures Run(cfg, s, events).endAfter <==> s.endAfter || AskedToEnd(cfg, s, events)
    decreases |events|
  {
    if events != [] {
      var t := Step(cfg, s, events[0]);
      HeadFacts(cfg, s);
      StepKeeps(cfg, s, events[0]);
      if t.verdict.Running? {
        if events[0].ResponseDone? {
          DoneEnds(cfg, s, events[0]);
          DoneEffects(cfg, s, events[0]);
        } else {
          ArmEffects(cfg, s, events[0]);
          OthersDoNotEnd(cfg, s, events[0]);
        }
        RunEnds(cfg, t, events[1..]);
      }
    }
  }

  /**
   When playback has drained the session ends in order exactly if some response asked to end
   the conversation; otherwise it is ready again, with the idle timer on, or its stale drain
   is refused. Idle for too long it ends in order as well.
   */
  lemma EndsWhenAsked(cfg: Config, events: seq<Event>, s: Loop)
    requires AtLoopHead(cfg, events, s)
    ensures s.drainArmed ==>
              var t := Step(cfg, s, DrainElapsed);
              && !t.drainArmed && t.log == s.log
              && (t.verdict.Returned? <==> AskedToEnd(cfg, Start(), events))
              && (t.verdict.Returned? ==> t.session.ShuttingDown?)
              && (t.verdict.Running? <==> !AskedToEnd(cfg, Start(), events) && !s.session.Capturing?)
              && (t.verdict.Running? ==> t == s.(session := Ready, drainArmed := false, idleArmed := true))
    ensures s.idleArmed ==>
              var t := Step(cfg, s, IdleElapsed);
              t.verdict.Returned? && t.session.ShuttingDown? && t.log == s.log
  {
    HeadIs(cfg, events, s);
    StartOk(cfg);
    RunEnds(cfg, Start(), events);
  }
}
