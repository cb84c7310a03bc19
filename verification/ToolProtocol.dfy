/**
 The native-Qwen event loop (`run_event_loop`) as a state machine.

 One step is one arm of the loop's `select!`: what runs between two visits to
 the loop head. Timers are flags that say whether a deadline is armed; an armed
 timer may elapse at any head. Arms may be taken in any order, which includes
 every order the `biased` select allows. What the environment decides inside an
 arm (the order in which the call table is drained, how many sends succeed
 before one fails, which tools the MCP client routes) is part of the event.
 */
module ToolProtocol {
  import opened Options
  import opened Histories
  import opened SessionStates

  /** Text as the wire carries it: one `char` per UTF-8 byte, so `|t|` is its byte length. */
  type Text = string

  datatype CallId = CallId(text: Text)

  const TOOL_BUDGET_EXHAUSTED_GRACE: nat := 2
  const MAX_CALL_ID_BYTES: nat := 256
  const MAX_TOOL_NAME_BYTES: nat := 256
  const MAX_TOOL_ARGUMENT_BYTES: nat := 64 * 1024
  const END_CONVERSATION_TOOL_NAME: Text := "end_conversation"

  /** The limits of a `NativeToolRuntime`, and its test for a JSON object. */
  datatype Config = Config(maxCalls: nat, maxIterations: nat, isJsonObject: Text -> bool)

  datatype PendingFunctionCall =
    PendingFunctionCall(itemId: Text, outputIndex: nat, name: Text, arguments: Text)

  /** Where `execute` sends a call; `Invalid` arguments reach no tool at all. */
  datatype Route = Native | Generic | Invalid

  datatype ToolFuture =
    ToolFuture(callId: CallId, call: PendingFunctionCall, route: Route, started: bool)

  datatype ResponseStatus = Completed | Canceled | Failed | Incomplete

  datatype OutputItem =
    | Message
    | FunctionCall(id: Text, status: ResponseStatus, callId: CallId, name: Text, arguments: Text)

  datatype DoneCall = DoneCall(outputIndex: nat, item: OutputItem)

  datatype Event =
    | CancelChanged(stop: bool)
    | InterruptChanged(ok: bool)
    | AudioActivity
    | DrainElapsed
    | IdleElapsed
    | ResponseElapsed
    | CaptureEnded
    | ToolPolled(index: nat)
    | ToolFinished(index: nat, sends: nat)
    | TransportLost
    | TransportOther
    | Undecodable
    | ArgumentsDone(callId: CallId, responseId: Text, call: PendingFunctionCall)
    | ResponseDone(responseId: Text, status: ResponseStatus, output: seq<OutputItem>,
                   order: seq<CallId>, routed: set<Text>, sends: nat)
    | AudioDelta
    | TranscriptDone(responseId: Text)
    | ServerError
    | ResponseCreated(responseId: Text)
    | SpeechStarted
    | SpeechStopped
    | OtherEvent

  datatype LoopError =
    | TransitionRefused
    | IterationLimit
    | GraceExceeded
    | ProtocolViolation
    | SendFailed
    | ResponseTimeout
    | CaptureStopped
    | TransportError

  datatype Verdict = Running | Returned | Bailed(error: LoopError)

  /** What the history records about call ids. */
  datatype Kind = Received | Dropped | Refused | Executed | Effect | Output

  datatype Action =
    | Calls(kind: Kind, ids: set<CallId>)
    | ResponseCreate
    | ResponseCancel(responseId: Option<Text>)
    | InterruptPlayback
    | BeginResponse

  /** What a connection has done so far, latest action last. */
  type History = Log<Action>

  datatype Loop = Loop(
    session: SessionState,
    active: Option<Text>,
    responseArmed: bool,
    calls: map<CallId, PendingFunctionCall>,
    seen: set<CallId>,
    pending: seq<ToolFuture>,
    waiting: bool,
    iterations: nat,
    toolCalls: nat,
    refusals: nat,
    idleArmed: bool,
    endAfter: bool,
    drainArmed: bool,
    effects: bool,
    log: History,
    verdict: Verdict)

  /** The loop as `run_once` enters it: capturing, idle timer armed. */
  function Start(): Loop {
    Loop(Capturing, None, false, map[], {}, [], false, 0, 0, 0, true, false, false, false, Empty, Running)
  }

  function Bail(s: Loop, error: LoopError): Loop { s.(verdict := Bailed(error)) }

  /** `machine.transition(to)?` then `return Ok(())`. */
  function Leave(s: Loop, to: SessionState): Loop {
    if Accepts(s.session, to) then s.(session := to, verdict := Returned) else Bail(s, TransitionRefused)
  }

  function OnCancel(s: Loop): Loop {
    if !Accepts(s.session, Cancelling) then Bail(s, TransitionRefused)
    else
      var log := if s.active.Some? then Then(s.log, ResponseCancel(s.active)) else s.log;
      if !Accepts(Cancelling, ShuttingDown) then s.(active := None, log := log, verdict := Bailed(TransitionRefused))
      else s.(session := ShuttingDown, active := None, log := log, verdict := Returned)
  }

  function OnInterrupt(s: Loop): Loop {
    var log := Then(s.log, InterruptPlayback);
    if s.session.Responding? then
      var told := if s.active.Some? then Then(log, ResponseCancel(None)) else log;
      s.(session := if Accepts(s.session, Capturing) then Capturing else s.session,
         active := None, calls := map[], responseArmed := false, drainArmed := false, idleArmed := true,
         log := Then(told, Calls(Dropped, s.calls.Keys)),
         verdict := if Accepts(s.session, Capturing) then Running else Bailed(TransitionRefused))
    else if s.session.Ready? then
      s.(session := if Accepts(s.session, Capturing) then Capturing else s.session,
         drainArmed := false, idleArmed := true, log := log,
         verdict := if Accepts(s.session, Capturing) then Running else Bailed(TransitionRefused))
    else s.(drainArmed := false, idleArmed := true, log := log)
  }

  function OnDrainElapsed(s: Loop): Loop {
    if s.endAfter then Leave(s.(drainArmed := false), ShuttingDown)
    else if !Accepts(s.session, Ready) then s.(drainArmed := false, verdict := Bailed(TransitionRefused))
    else s.(session := Ready, drainArmed := false, idleArmed := true)
  }

  /** The first poll of a tool future: from here the call may have had an effect. */
  function OnToolPolled(s: Loop, index: nat): Loop
    requires index < |s.pending|
  {
    var future := s.pending[index];
    var native := future.route.Native?;
    s.(pending := s.pending[index := future.(started := true)],
       effects := s.effects || native,
       log := if native then Then(s.log, Calls(Effect, {future.callId})) else s.log)
  }

  function OnToolFinished(cfg: Config, s: Loop, index: nat, sends: nat): Loop
    requires index < |s.pending|
  {
    var left := s.pending[..index] + s.pending[index + 1..];
    var told := Then(s.log, Calls(Output, {s.pending[index].callId}));
    if sends == 0 then s.(pending := left, verdict := Bailed(SendFailed))
    else if !s.waiting || left != [] then s.(pending := left, log := told)
    else if s.iterations > cfg.maxIterations then s.(pending := left, log := told, verdict := Bailed(IterationLimit))
    else if sends == 1 then s.(pending := left, log := told, verdict := Bailed(SendFailed))
    else s.(pending := left, waiting := false, active := None, responseArmed := true,
            log := Then(told, ResponseCreate))
  }

  predicate Conflicts(active: Option<Text>, responseId: Text) {
    active.Some? && active.value != responseId
  }

  predicate Acceptable(callId: CallId, call: PendingFunctionCall) {
    && 0 < |callId.text| <= MAX_CALL_ID_BYTES
    && 0 < |call.name| <= MAX_TOOL_NAME_BYTES
    && |call.arguments| <= MAX_TOOL_ARGUMENT_BYTES
  }

  function OnArgumentsDone(s: Loop, callId: CallId, responseId: Text, call: PendingFunctionCall): Loop {
    if s.waiting || s.pending != [] || Conflicts(s.active, responseId) || callId in s.seen
       || !Acceptable(callId, call)
    then Bail(s, ProtocolViolation)
    else s.(active := Some(responseId), seen := s.seen + {callId}, calls := s.calls[callId := call],
            log := Then(s.log, Calls(Received, {callId})))
  }

  /** The function calls of a response.done with their positions in its output. */
  function DoneCalls(output: seq<OutputItem>): seq<DoneCall> {
    if output == [] then []
    else
      var last := |output| - 1;
      DoneCalls(output[..last]) +
      if output[last].FunctionCall? then [DoneCall(last, output[last])] else []
  }

  /** One listed call agrees with what the arguments event said about it. */
  predicate Agrees(done: DoneCall, calls: map<CallId, PendingFunctionCall>)
    requires done.item.FunctionCall?
  {
    && done.item.status.Completed?
    && done.item.callId in calls
    && calls[done.item.callId] ==
       PendingFunctionCall(done.item.id, done.outputIndex, done.item.name, done.item.arguments)
  }

  predicate AllCalls(done: seq<DoneCall>) {
    forall i | 0 <= i < |done| :: done[i].item.FunctionCall?
  }

  predicate DistinctIds(done: seq<DoneCall>)
    requires AllCalls(done)
  {
    forall i, j | 0 <= i < j < |done| :: done[i].item.callId != done[j].item.callId
  }

  /** Everything the loop checks about a non-empty list of calls before acting on it. */
  predicate Matches(cfg: Config, done: seq<DoneCall>, calls: map<CallId, PendingFunctionCall>)
    requires AllCalls(done)
  {
    && |done| <= cfg.maxCalls
    && |done| == |calls|
    && DistinctIds(done)
    && forall i | 0 <= i < |done| :: Agrees(done[i], calls)
  }

  predicate EndsConversation(done: seq<DoneCall>)
    requires AllCalls(done)
  {
    exists i | 0 <= i < |done| :: done[i].item.name == END_CONVERSATION_TOOL_NAME
  }

  predicate ToolBudgetExhausted(cfg: Config, iterations: nat, toolCalls: nat, requested: nat) {
    iterations >= cfg.maxIterations || toolCalls + requested > cfg.maxCalls
  }

  /** The history after one function_call_output per id, until one send fails. */
  function WithOutputs(log: History, order: seq<CallId>, sends: nat): History
    decreases |order|
  {
    if order == [] || sends == 0 then log
    else WithOutputs(Then(log, Calls(Output, {order[0]})), order[1..], sends - 1)
  }

  function Refuse(s: Loop, order: seq<CallId>, sends: nat): Loop {
    if s.refusals + 1 > TOOL_BUDGET_EXHAUSTED_GRACE then
      s.(refusals := s.refusals + 1, verdict := Bailed(GraceExceeded))
    else
      var told := WithOutputs(Then(s.log, Calls(Refused, s.calls.Keys)), order, sends);
      if sends <= |order| then
        s.(refusals := s.refusals + 1, calls := map[], log := told, verdict := Bailed(SendFailed))
      else
        s.(refusals := s.refusals + 1, calls := map[], active := None, responseArmed := true,
           log := Then(told, ResponseCreate))
  }

  function RouteOf(cfg: Config, routed: set<Text>, call: PendingFunctionCall): Route {
    if !cfg.isJsonObject(call.arguments) then Invalid
    else if call.name in routed then Native
    else Generic
  }

  function Future(cfg: Config, routed: set<Text>, callId: CallId, call: PendingFunctionCall): ToolFuture {
    ToolFuture(callId, call, RouteOf(cfg, routed, call), false)
  }

  /** The ids whose generic work `execute` starts at once. */
  function EagerIds(cfg: Config, routed: set<Text>, calls: map<CallId, PendingFunctionCall>): set<CallId> {
    set id | id in calls && RouteOf(cfg, routed, calls[id]).Generic?
  }

  function Futures(cfg: Config, routed: set<Text>, calls: map<CallId, PendingFunctionCall>,
                   order: seq<CallId>): (futures: seq<ToolFuture>)
    requires forall id | id in order :: id in calls
    ensures |futures| == |order|
    ensures forall i | 0 <= i < |order| :: futures[i] == Future(cfg, routed, order[i], calls[order[i]])
  {
    if order == [] then []
    else
      var last := |order| - 1;
      assert order[last] in order;
      Futures(cfg, routed, calls, order[..last]) + [Future(cfg, routed, order[last], calls[order[last]])]
  }

  function Dispatch(cfg: Config, s: Loop, order: seq<CallId>, routed: set<Text>): Loop
    requires forall id | id in order :: id in s.calls
  {
    var eager := EagerIds(cfg, routed, s.calls);
    s.(iterations := s.iterations + 1,
       toolCalls := s.toolCalls + |s.calls|,
       waiting := true,
       responseArmed := false,
       calls := map[],
       pending := s.pending + Futures(cfg, routed, s.calls, order),
       effects := s.effects || eager != {},
       log := Then(Then(s.log, Calls(Executed, s.calls.Keys)), Calls(Effect, eager)))
  }

  function OnCanceledDone(s: Loop, responseId: Text): Loop {
    if Conflicts(s.active, responseId) then s
    else
      var moves := s.session.Responding?;
      s.(session := if moves && Accepts(s.session, Capturing) then Capturing else s.session,
         active := None, calls := map[], responseArmed := false,
         log := Then(s.log, Calls(Dropped, s.calls.Keys)),
         verdict := if moves && !Accepts(s.session, Capturing) then Bailed(TransitionRefused) else Running)
  }

  function OnDoneWithoutCalls(s: Loop): Loop {
    if s.calls != map[] then Bail(s, ProtocolViolation)
    else if s.session.Capturing? && !Accepts(s.session, Responding) then Bail(s, TransitionRefused)
    else s.(session := if s.session.Capturing? then Responding else s.session,
            active := None, responseArmed := false, drainArmed := true)
  }

  /** A completed response that lists function calls. */
  function OnCalls(cfg: Config, s: Loop, done: seq<DoneCall>, order: seq<CallId>, routed: set<Text>, sends: nat): Loop
    requires AllCalls(done)
    requires forall id | id in order :: id in s.calls
  {
    if !Matches(cfg, done, s.calls) then
      var ends := |done| <= cfg.maxCalls && |done| == |s.calls| && EndsConversation(done);
      s.(endAfter := s.endAfter || ends, verdict := Bailed(ProtocolViolation))
    else
      var ending := s.(endAfter := s.endAfter || EndsConversation(done));
      if ToolBudgetExhausted(cfg, s.iterations, s.toolCalls, |s.calls|) then Refuse(ending, order, sends)
      else Dispatch(cfg, ending, order, routed)
  }

  function OnResponseDone(cfg: Config, s: Loop, responseId: Text, status: ResponseStatus,
                          output: seq<OutputItem>, order: seq<CallId>, routed: set<Text>, sends: nat): Loop
    requires forall id | id in order :: id in s.calls
  {
    if status.Canceled? then OnCanceledDone(s, responseId)
    else if !status.Completed? || Conflicts(s.active, responseId) then Bail(s, ProtocolViolation)
    else
      var done := DoneCalls(output);
      DoneCallsAreCalls(output);
      if done == [] then OnDoneWithoutCalls(s) else OnCalls(cfg, s, done, order, routed, sends)
  }

  function OnResponseCreated(s: Loop, responseId: Text): Loop {
    var moves := s.session.Capturing? || s.session.Ready?;
    var log := Then(s.log, BeginResponse);
    if moves && !Accepts(s.session, Responding) then
      s.(active := Some(responseId), log := log, verdict := Bailed(TransitionRefused))
    else
      s.(session := if moves then Responding else s.session,
         active := Some(responseId), idleArmed := false, responseArmed := true, log := log)
  }

  function OnSpeechStarted(s: Loop): Loop {
    var moves := s.session.Responding? || s.session.Ready?;
    var refused := moves && !Accepts(s.session, Capturing);
    s.(session := if moves && !refused then Capturing else s.session,
       drainArmed := false, idleArmed := false, responseArmed := false,
       log := Then(s.log, InterruptPlayback),
       verdict := if refused then Bailed(TransitionRefused) else Running)
  }

  /** `order` lists each key of the call table once: one way its drain can go. */
  predicate DrainOrder(order: seq<CallId>, calls: map<CallId, PendingFunctionCall>) {
    && (forall id | id in order :: id in calls)
    && (forall id | id in calls :: id in order)
    && forall i, j | 0 <= i < j < |order| :: order[i] != order[j]
  }

  /** The events that can happen at a loop head. */
  predicate Enabled(s: Loop, e: Event) {
    match e
    case AudioActivity => s.drainArmed
    case DrainElapsed => s.drainArmed
    case IdleElapsed => s.idleArmed
    case ResponseElapsed => s.responseArmed
    case ToolPolled(index) => index < |s.pending| && !s.pending[index].started
    case ToolFinished(index, _) => index < |s.pending| && s.pending[index].started
    case ResponseDone(_, _, _, order, _, _) => DrainOrder(order, s.calls)
    case _ => true
  }

  function Step(cfg: Config, s: Loop, e: Event): Loop
    requires Enabled(s, e)
  {
    match e
    case CancelChanged(stop) => if stop then OnCancel(s) else s
    case InterruptChanged(ok) => if ok then OnInterrupt(s) else s
    case AudioActivity => s
    case DrainElapsed => OnDrainElapsed(s)
    case IdleElapsed => Leave(s, ShuttingDown)
    case ResponseElapsed => Bail(s, ResponseTimeout)
    case CaptureEnded => Bail(s, CaptureStopped)
    case ToolPolled(index) => OnToolPolled(s, index)
    case ToolFinished(index, sends) => OnToolFinished(cfg, s, index, sends)
    case TransportLost => Bail(s, TransportError)
    case TransportOther => s
    case Undecodable => Bail(s, ProtocolViolation)
    case ArgumentsDone(callId, responseId, call) => OnArgumentsDone(s, callId, responseId, call)
    case ResponseDone(responseId, status, output, order, routed, sends) =>
      OnResponseDone(cfg, s, responseId, status, output, order, routed, sends)
    case AudioDelta => Bail(s, ProtocolViolation)
    case TranscriptDone(responseId) => s.(active := Some(responseId))
    case ServerError => Bail(s, ProtocolViolation)
    case ResponseCreated(responseId) => OnResponseCreated(s, responseId)
    case SpeechStarted => OnSpeechStarted(s)
    case SpeechStopped => s.(responseArmed := true)
    case OtherEvent => s
  }

  /** A run the environment can produce: each event is possible at the head it meets. */
  predicate Feasible(cfg: Config, s: Loop, events: seq<Event>)
    decreases |events|
  {
    events == [] ||
    (s.verdict.Running? && Enabled(s, events[0]) && Feasible(cfg, Step(cfg, s, events[0]), events[1..]))
  }

  function Run(cfg: Config, s: Loop, events: seq<Event>): Loop
    requires Feasible(cfg, s, events)
    decreases |events|
  {
    if events == [] then s else Run(cfg, Step(cfg, s, events[0]), events[1..])
  }

  lemma DoneCallsAreCalls(output: seq<OutputItem>)
    ensures AllCalls(DoneCalls(output))
  {
  }
}
