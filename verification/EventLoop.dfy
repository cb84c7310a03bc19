/**
 `run_event_loop` as the source writes it: local variables updated arm by arm.
 Each method is one arm; its postcondition says that it makes exactly the step
 of the protocol, so every theorem about `Step` holds of these updates.
 */
module EventLoops {
  import opened Options
  import opened Histories
  import opened SessionStates
  import opened ToolProtocol

  /** `OnInterrupt`, field by field. */
  lemma InterruptIs(s: Loop, t: Loop)
    requires t.session == (if s.session.Responding? || s.session.Ready? then Capturing else s.session)
    requires s.session.Responding? ==>
               && t.active == None && t.calls == map[] && !t.responseArmed
               && t.log == Then(if s.active.Some? then Then(Then(s.log, InterruptPlayback), ResponseCancel(None))
                                else Then(s.log, InterruptPlayback), Calls(Dropped, s.calls.Keys))
    requires !s.session.Responding? ==>
               && t.active == s.active && t.calls == s.calls && t.responseArmed == s.responseArmed
               && t.log == Then(s.log, InterruptPlayback)
    requires s.verdict.Running? && t.verdict.Running? && !t.drainArmed && t.idleArmed
    requires t.seen == s.seen && t.pending == s.pending && t.waiting == s.waiting && t.iterations == s.iterations
    requires t.toolCalls == s.toolCalls && t.refusals == s.refusals && t.endAfter == s.endAfter
    requires t.effects == s.effects
    ensures t == OnInterrupt(s)
  {
    assert Accepts(Responding, Capturing) && Accepts(Ready, Capturing);
  }

  lemma Uncounted(s: Loop, t: Loop)
    requires t == s.(refusals := s.refusals + 1)
    ensures t.(refusals := t.refusals - 1) == s
  {
  }

  class EventLoop {
    const cfg: Config
    const machine: SessionMachine
    var active: Option<Text>
    var responseArmed: bool
    var calls: map<CallId, PendingFunctionCall>
    var seen: set<CallId>
    var pending: seq<ToolFuture>
    var waiting: bool
    var iterations: nat
    var toolCalls: nat
    var refusals: nat
    var idleArmed: bool
    var endAfter: bool
    var drainArmed: bool
    var effects: bool
    var log: History
    var verdict: Verdict

    ghost function View(): Loop
      reads this, machine
    {
      Loop(machine.state, active, responseArmed, calls, seen, pending, waiting, iterations, toolCalls, refusals,
           idleArmed, endAfter, drainArmed, effects, log, verdict)
    }

    /** Enters the loop with a machine that `run_once` has moved to Capturing. */
    constructor (cfg: Config, machine: SessionMachine)
      requires machine.state.Capturing?
      ensures this.cfg == cfg && this.machine == machine
      ensures View() == Start()
    {
      this.cfg := cfg;
      this.machine := machine;
      active := None;
      responseArmed := false;
      calls := map[];
      seen := {};
      pending := [];
      waiting := false;
      iterations := 0;
      toolCalls := 0;
      refusals := 0;
      idleArmed := true;
      endAfter := false;
      drainArmed := false;
      effects := false;
      log := Empty;
      verdict := Running;
    }

    method Cancel()
      requires verdict.Running?
      modifies this, machine
      ensures View() == OnCancel(old(View()))
    {
      var ok := machine.Transition(Cancelling);
      if !ok {
        verdict := Bailed(TransitionRefused);
        return;
      }
      if active.Some? {
        log := Then(log, ResponseCancel(active));
        active := None;
      }
      ok := machine.Transition(ShuttingDown);
      verdict := if ok then Returned else Bailed(TransitionRefused);
    }

    /** Cancels the current response, if any, and forgets its calls. */
    method AbandonResponse()
      modifies this`log, this`active, this`calls, this`responseArmed
      ensures log == Then(if old(active).Some? then Then(old(log), ResponseCancel(None)) else old(log),
                          Calls(Dropped, old(calls).Keys))
      ensures active == None && calls == map[] && !responseArmed
    {
      if active.Some? {
        log := Then(log, ResponseCancel(None));
      }
      active := None;
      log := Then(log, Calls(Dropped, calls.Keys));
      calls := map[];
      responseArmed := false;
    }

    /** The interrupt arm after playback is stopped: who is to speak decides the move. */
    method BeginCapture()
      requires verdict.Running?
      modifies this`log, this`active, this`calls, this`responseArmed, this`verdict, machine
      ensures machine.state == (if LetsGo(old(machine.state)) then Capturing else old(machine.state))
      ensures verdict.Running?
      ensures old(machine.state).Responding? ==>
                active == None && calls == map[] && !responseArmed &&
                log == Then(if old(active).Some? then Then(old(log), ResponseCancel(None)) else old(log),
                            Calls(Dropped, old(calls).Keys))
      ensures !old(machine.state).Responding? ==>
                active == old(active) && calls == old(calls) && responseArmed == old(responseArmed) && log == old(log)
    {
      var ok := true;
      if machine.state.Responding? {
        AbandonResponse();
        ok := machine.Transition(Capturing);
      } else if machine.state.Ready? {
        ok := machine.Transition(Capturing);
      }
      verdict := if ok then Running else Bailed(TransitionRefused);
    }

    static predicate LetsGo(state: SessionState) { state.Responding? || state.Ready? }

    method Interrupt()
      requires verdict.Running?
      modifies this, machine
      ensures View() == OnInterrupt(old(View()))
    {
      ghost var s := View();
      log := Then(log, InterruptPlayback);
      drainArmed := false;
      idleArmed := true;
      BeginCapture();
      assert Accepts(Responding, Capturing) && Accepts(Ready, Capturing);
      InterruptIs(s, View());
    }

    method DrainElapses()
      requires verdict.Running?
      modifies this, machine
      ensures View() == OnDrainElapsed(old(View()))
    {
      drainArmed := false;
      if endAfter {
        var ok := machine.Transition(ShuttingDown);
        verdict := if ok then Returned else Bailed(TransitionRefused);
        return;
      }
      var ok := machine.Transition(Ready);
      if !ok {
        verdict := Bailed(TransitionRefused);
        return;
      }
      idleArmed := true;
    }

    method IdleElapses()
      requires verdict.Running?
      modifies this, machine
      ensures View() == Leave(old(View()), ShuttingDown)
    {
      var ok := machine.Transition(ShuttingDown);
      verdict := if ok then Returned else Bailed(TransitionRefused);
    }

    /** The first poll of one of the futures `execute` returned. */
    method PollTool(index: nat)
      requires index < |pending|
      modifies this
      ensures View() == OnToolPolled(old(View()), index)
    {
      var future := pending[index];
      pending := pending[index := future.(started := true)];
      if future.route.Native? {
        effects := true;
        log := Then(log, Calls(Effect, {future.callId}));
      }
    }

    method FinishTool(index: nat, sends: nat)
      requires verdict.Running? && index < |pending|
      modifies this
      ensures View() == OnToolFinished(cfg, old(View()), index, sends)
    {
      var execution := pending[index];
      pending := pending[..index] + pending[index + 1..];
      if sends == 0 {
        verdict := Bailed(SendFailed);
        return;
      }
      log := Then(log, Calls(Output, {execution.callId}));
      if waiting && pending == [] {
        if iterations > cfg.maxIterations {
          verdict := Bailed(IterationLimit);
          return;
        }
        RequestNext(sends);
      }
    }

    /** The batch is answered: the next response is requested, if that can be sent. */
    method RequestNext(sends: nat)
      modifies this`verdict, this`log, this`waiting, this`active, this`responseArmed
      ensures View() == if sends == 1 then old(View()).(verdict := Bailed(SendFailed))
                        else old(View()).(log := Then(old(log), ResponseCreate), waiting := false, active := None,
                                          responseArmed := true)
    {
      if sends == 1 {
        verdict := Bailed(SendFailed);
        return;
      }
      log := Then(log, ResponseCreate);
      waiting := false;
      active := None;
      responseArmed := true;
    }

    method ReceiveArguments(callId: CallId, responseId: Text, call: PendingFunctionCall)
      requires verdict.Running?
      modifies this
      ensures View() == OnArgumentsDone(old(View()), callId, responseId, call)
    {
      if waiting || pending != [] || Conflicts(active, responseId) || callId in seen || !Acceptable(callId, call) {
        verdict := Bailed(ProtocolViolation);
        return;
      }
      active := Some(responseId);
      seen := seen + {callId};
      calls := calls[callId := call];
      log := Then(log, Calls(Received, {callId}));
    }

    /** The function calls of a response, with their positions. */
    static method CollectDoneCalls(output: seq<OutputItem>) returns (done: seq<DoneCall>)
      ensures done == DoneCalls(output)
    {
      done := [];
      for i := 0 to |output|
        invariant done == DoneCalls(output[..i])
      {
        assert output[..i + 1][..i] == output[..i];
        if output[i].FunctionCall? {
          done := done + [DoneCall(i, output[i])];
        }
      }
      assert output[..|output|] == output;
    }

    /** The per-call check against the arguments events, with its set of ids met so far. */
    static method CheckDoneCalls(done: seq<DoneCall>, calls: map<CallId, PendingFunctionCall>) returns (ok: bool)
      requires AllCalls(done)
      ensures ok <==> DistinctIds(done) && forall i | 0 <= i < |done| :: Agrees(done[i], calls)
    {
      var doneIds := {};
      for i := 0 to |done|
        invariant forall id :: id in doneIds <==> exists k | 0 <= k < i :: done[k].item.callId == id
        invariant forall j, k | 0 <= j < k < i :: done[j].item.callId != done[k].item.callId
        invariant forall k | 0 <= k < i :: Agrees(done[k], calls)
      {
        var id := done[i].item.callId;
        if !done[i].item.status.Completed? || id in doneIds {
          return false;
        }
        doneIds := doneIds + {id};
        if !Agrees(done[i], calls) {
          return false;
        }
      }
      return true;
    }

    method CanceledDone(responseId: Text)
      requires verdict.Running?
      modifies this, machine
      ensures View() == OnCanceledDone(old(View()), responseId)
    {
      if !Conflicts(active, responseId) {
        active := None;
        log := Then(log, Calls(Dropped, calls.Keys));
        calls := map[];
        responseArmed := false;
        var ok := true;
        if machine.state.Responding? {
          ok := machine.Transition(Capturing);
        }
        verdict := if ok then Running else Bailed(TransitionRefused);
      }
    }

    method DoneWithoutCalls()
      requires verdict.Running?
      modifies this, machine
      ensures View() == OnDoneWithoutCalls(old(View()))
    {
      if calls != map[] {
        verdict := Bailed(ProtocolViolation);
        return;
      }
      var ok := true;
      if machine.state.Capturing? {
        ok := machine.Transition(Responding);
      }
      active := if ok then None else active;
      responseArmed := responseArmed && !ok;
      drainArmed := drainArmed || ok;
      verdict := if ok then Running else Bailed(TransitionRefused);
    }

    /** Sends the refusals one by one until a send fails. */
    method SendRefusals(order: seq<CallId>, sends: nat)
      modifies this`log
      ensures log == WithOutputs(old(log), order, sends)
    {
      var i := 0;
      assert order[0..] == order;
      while i < |order| && i < sends
        invariant i <= |order| && i <= sends
        invariant WithOutputs(log, order[i..], sends - i) == WithOutputs(old(log), order, sends)
      {
        assert order[i..][1..] == order[i + 1..];
        log := Then(log, Calls(Output, {order[i]}));
        i := i + 1;
      }
    }

    /** Over budget: every call is answered with an error and a direct answer is requested. */
    method RefuseCalls(order: seq<CallId>, sends: nat)
      requires verdict.Running? && DrainOrder(order, calls)
      modifies this
      ensures View() == Refuse(old(View()), order, sends)
    {
      ghost var s := View();
      refusals := refusals + 1;
      if refusals > TOOL_BUDGET_EXHAUSTED_GRACE {
        verdict := Bailed(GraceExceeded);
      } else {
        RefuseWithinGrace(s, order, sends);
      }
    }

    /** `s` is the loop as it was before the refusal was counted. */
    method RefuseWithinGrace(ghost s: Loop, order: seq<CallId>, sends: nat)
      requires View() == s.(refusals := s.refusals + 1) && refusals <= TOOL_BUDGET_EXHAUSTED_GRACE
      modifies this`log, this`calls, this`verdict, this`active, this`responseArmed
      ensures View() == Refuse(s, order, sends)
    {
      Uncounted(s, View());
      SendRefusalsAndAsk(order, sends);
    }

    method SendRefusalsAndAsk(order: seq<CallId>, sends: nat)
      requires 0 < refusals <= TOOL_BUDGET_EXHAUSTED_GRACE
      modifies this`log, this`calls, this`verdict, this`active, this`responseArmed
      ensures View() == Refuse(old(View()).(refusals := refusals - 1), order, sends)
    {
      AnswerRefused(order, sends);
      if sends <= |order| {
        verdict := Bailed(SendFailed);
        return;
      }
      log := Then(log, ResponseCreate);
      active := None;
      responseArmed := true;
    }

    /** The received calls leave the table and get their refusals, until one cannot be sent. */
    method AnswerRefused(order: seq<CallId>, sends: nat)
      modifies this`log, this`calls
      ensures log == WithOutputs(Then(old(log), Calls(Refused, old(calls).Keys)), order, sends) && calls == map[]
    {
      log := Then(log, Calls(Refused, calls.Keys));
      calls := map[];
      SendRefusals(order, sends);
    }

    /** Drains a call table into tool futures; says whether generic work has started at once. */
    static method ExecuteCalls(cfg: Config, calls: map<CallId, PendingFunctionCall>, order: seq<CallId>, routed: set<Text>)
      returns (futures: seq<ToolFuture>, started: bool)
      requires DrainOrder(order, calls)
      ensures futures == Futures(cfg, routed, calls, order)
      ensures started <==> EagerIds(cfg, routed, calls) != {}
    {
      futures, started := [], false;
      for i := 0 to |order|
        invariant |futures| == i
        invariant forall k | 0 <= k < i :: futures[k] == Future(cfg, routed, order[k], calls[order[k]])
        invariant started ==> EagerIds(cfg, routed, calls) != {}
        invariant forall k | 0 <= k < i :: futures[k].route.Generic? ==> started
      {
        var future := Future(cfg, routed, order[i], calls[order[i]]);
        if future.route.Generic? {
          assert order[i] in EagerIds(cfg, routed, calls);
          started := true;
        }
        futures := futures + [future];
      }
      assert futures == Futures(cfg, routed, calls, order);
      if id :| id in EagerIds(cfg, routed, calls) {
        var k :| 0 <= k < |order| && order[k] == id;
        assert futures[k].route.Generic?;
      }
    }

    /** Within budget: the batch is counted and handed to the tools. */
    method DispatchCalls(order: seq<CallId>, routed: set<Text>)
      requires DrainOrder(order, calls)
      modifies this
      ensures View() == Dispatch(cfg, old(View()), order, routed)
    {
      ghost var s := View();
      var count := |calls|;
      StartTools(order, routed);
      iterations := iterations + 1;
      toolCalls := toolCalls + count;
      waiting := true;
      responseArmed := false;
    }

    /** Turns the received calls into pending tool futures. */
    method StartTools(order: seq<CallId>, routed: set<Text>)
      requires DrainOrder(order, calls)
      modifies this`pending, this`effects, this`log, this`calls
      ensures pending == old(pending) + Futures(cfg, routed, old(calls), order)
      ensures effects == (old(effects) || EagerIds(cfg, routed, old(calls)) != {})
      ensures log == Then(Then(old(log), Calls(Executed, old(calls).Keys)),
                          Calls(Effect, EagerIds(cfg, routed, old(calls))))
      ensures calls == map[]
    {
      var futures, started := ExecuteCalls(cfg, calls, order, routed);
      pending := pending + futures;
      effects := effects || started;
      log := Then(Then(log, Calls(Executed, calls.Keys)), Calls(Effect, EagerIds(cfg, routed, calls)));
      calls := map[];
    }

    method FinishResponse(responseId: Text, status: ResponseStatus, output: seq<OutputItem>,
                          order: seq<CallId>, routed: set<Text>, sends: nat)
      requires verdict.Running? && DrainOrder(order, calls)
      modifies this, machine
      ensures View() == OnResponseDone(cfg, old(View()), responseId, status, output, order, routed, sends)
    {
      if status.Canceled? {
        CanceledDone(responseId);
        return;
      }
      if !status.Completed? || Conflicts(active, responseId) {
        verdict := Bailed(ProtocolViolation);
        return;
      }
      var done := CollectDoneCalls(output);
      DoneCallsAreCalls(output);
      if done == [] {
        DoneWithoutCalls();
        return;
      }
      FinishCalls(done, order, routed, sends);
    }

    /** A completed response that lists function calls: checked, then refused or dispatched. */
    method FinishCalls(done: seq<DoneCall>, order: seq<CallId>, routed: set<Text>, sends: nat)
      requires verdict.Running? && DrainOrder(order, calls) && AllCalls(done)
      modifies this
      ensures View() == OnCalls(cfg, old(View()), done, order, routed, sends)
    {
      if |done| > cfg.maxCalls || |done| != |calls| {
        verdict := Bailed(ProtocolViolation);
        return;
      }
      if exists i | 0 <= i < |done| :: done[i].item.name == END_CONVERSATION_TOOL_NAME {
        endAfter := true;
      }
      var ok := CheckDoneCalls(done, calls);
      if !ok {
        verdict := Bailed(ProtocolViolation);
        return;
      }
      ActOnCalls(order, routed, sends);
    }

    /** The calls are the received ones: refused over budget, else handed to the tools. */
    method ActOnCalls(order: seq<CallId>, routed: set<Text>, sends: nat)
      requires verdict.Running? && DrainOrder(order, calls)
      modifies this
      ensures View() == if ToolBudgetExhausted(cfg, old(iterations), old(toolCalls), |old(calls)|)
                        then Refuse(old(View()), order, sends) else Dispatch(cfg, old(View()), order, routed)
    {
      if ToolBudgetExhausted(cfg, iterations, toolCalls, |calls|) {
        RefuseCalls(order, sends);
      } else {
        DispatchCalls(order, routed);
      }
    }

    method CreateResponse(responseId: Text)
      requires verdict.Running?
      modifies this, machine
      ensures View() == OnResponseCreated(old(View()), responseId)
    {
      log := Then(log, BeginResponse);
      active := Some(responseId);
      var ok := true;
      if machine.state.Capturing? || machine.state.Ready? {
        ok := machine.Transition(Responding);
      }
      idleArmed := idleArmed && !ok;
      responseArmed := responseArmed || ok;
      verdict := if ok then Running else Bailed(TransitionRefused);
    }

    method StartSpeech()
      requires verdict.Running?
      modifies this, machine
      ensures View() == OnSpeechStarted(old(View()))
    {
      log := Then(log, InterruptPlayback);
      drainArmed := false;
      idleArmed := false;
      responseArmed := false;
      var ok := true;
      if machine.state.Responding? || machine.state.Ready? {
        ok := machine.Transition(Capturing);
      }
      verdict := if ok then Running else Bailed(TransitionRefused);
    }

    method Fail(error: LoopError)
      modifies this`verdict
      ensures View() == Bail(old(View()), error)
    {
      verdict := Bailed(error);
    }

    /** One visit to the `select!`. */
    method Handle(e: Event)
      requires verdict.Running? && Enabled(View(), e)
      modifies this, machine
      ensures View() == Step(cfg, old(View()), e)
    {
      match e
      case CancelChanged(stop) => if stop { Cancel(); }
      case InterruptChanged(ok) => if ok { Interrupt(); }
      case AudioActivity =>
      case DrainElapsed => DrainElapses();
      case IdleElapsed => IdleElapses();
      case ResponseElapsed => Fail(ResponseTimeout);
      case CaptureEnded => Fail(CaptureStopped);
      case ToolPolled(index) => PollTool(index);
      case ToolFinished(index, sends) => FinishTool(index, sends);
      case TransportLost => Fail(TransportError);
      case TransportOther =>
      case Undecodable => Fail(ProtocolViolation);
      case ArgumentsDone(callId, responseId, call) => ReceiveArguments(callId, responseId, call);
      case ResponseDone(responseId, status, output, order, routed, sends) =>
        FinishResponse(responseId, status, output, order, routed, sends);
      case AudioDelta => Fail(ProtocolViolation);
      case TranscriptDone(responseId) => active := Some(responseId);
      case ServerError => Fail(ProtocolViolation);
      case ResponseCreated(responseId) => CreateResponse(responseId);
      case SpeechStarted => StartSpeech();
      case SpeechStopped => responseArmed := true;
      case OtherEvent =>
    }

    /** The loop itself, for the events it meets before it ends or the input does. */
    method RunEvents(events: seq<Event>)
      requires Feasible(cfg, View(), events)
      modifies this, machine
      ensures View() == Run(cfg, old(View()), events)
    {
      var i := 0;
      assert events[0..] == events;
      while i < |events|
        invariant i <= |events|
        invariant Feasible(cfg, View(), events[i..])
        invariant Run(cfg, View(), events[i..]) == Run(cfg, old(View()), events)
      {
        assert events[i..][0] == events[i] && events[i..][1..] == events[i + 1..];
        Handle(events[i]);
        i := i + 1;
      }
      assert events[i..] == [];
    }
  }
}
