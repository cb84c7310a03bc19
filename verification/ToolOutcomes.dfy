/**
 What each event does to the calls of one connection, read off the history: which
 batches are executed and which refused, where a call id goes, and how the loop goes on.
 */
module ToolOutcomes {
  import opened Options
  import opened Histories
  import opened SessionStates
  import opened ToolProtocol
  import opened ToolSafety
  import opened ToolTheorems

  // ---- Batches in the history ----------------------------------------------

  /** How many batches of calls the history records for `kind`. */
  ghost function Batches(log: History, kind: Kind): nat {
    match log
    case Empty => 0
    case Then(before, a) => Batches(before, kind) + One(a.Calls? && a.kind == kind)
  }

  lemma {:induction false} OutputsAddNoBatch(log: History, order: seq<CallId>, sends: nat, kind: Kind)
    requires kind != Output
    ensures Batches(WithOutputs(log, order, sends), kind) == Batches(log, kind)
    decreases |order|
  {
    if order != [] && sends > 0 {
      OutputsAddNoBatch(Then(log, Calls(Output, {order[0]})), order[1..], sends - 1, kind);
    }
  }

  /** The loop's two counters are the numbers of executed and refused batches. */
  ghost predicate CountersOk(s: Loop) {
    s.iterations == Batches(s.log, Executed) && s.refusals == Batches(s.log, Refused)
  }

  // ---- The shapes of a step ------------------------------------------------

  /** `t` is `s` with its batch refused: the outputs as far as they were sent, then the request. */
  ghost predicate RefusedBatch(s: Loop, order: seq<CallId>, sends: nat, t: Loop) {
    var told := WithOutputs(Then(s.log, Calls(Refused, s.calls.Keys)), order, sends);
    && s.refusals < 2
    && t.iterations == s.iterations && t.refusals == s.refusals + 1
    && t.calls == map[] && t.pending == s.pending
    && (if sends <= |order| then t.log == told && t.verdict == Bailed(SendFailed)
        else t.log == Then(told, ResponseCreate) && t.verdict.Running? && t.active.None? && t.responseArmed)
  }

  /** The loop ends here and the history does not grow. */
  ghost predicate Ends(s: Loop, t: Loop, error: LoopError) { t.log == s.log && t.verdict == Bailed(error) }

  lemma RefuseShape(s: Loop, order: seq<CallId>, sends: nat)
    requires s.verdict.Running?
    ensures var t := Refuse(s, order, sends);
            if s.refusals < 2 then RefusedBatch(s, order, sends, t) else Ends(s, t, GraceExceeded)
  {
  }

  /** `t` is `s` with its batch handed to tools. */
  ghost predicate ExecutedBatch(cfg: Config, s: Loop, order: seq<CallId>, routed: set<Text>, t: Loop)
    requires forall id | id in order :: id in s.calls
  {
    && t.iterations == s.iterations + 1 && t.refusals == s.refusals
    && t.calls == map[] && t.waiting && t.verdict.Running? && !t.responseArmed
    && t.pending == s.pending + Futures(cfg, routed, s.calls, order)
    && t.log == Then(Then(s.log, Calls(Executed, s.calls.Keys)), Calls(Effect, EagerIds(cfg, routed, s.calls)))
  }

  lemma DispatchShape(cfg: Config, s: Loop, order: seq<CallId>, routed: set<Text>)
    requires s.verdict.Running? && forall id | id in order :: id in s.calls
    ensures ExecutedBatch(cfg, s, order, routed, Dispatch(cfg, s, order, routed))
  {
  }

  /** What `OnCalls` does, up to `endAfter`, which does not show in the shapes. */
  ghost predicate CallsShape(cfg: Config, s: Loop, done: seq<DoneCall>, order: seq<CallId>, routed: set<Text>, sends: nat,
                             t: Loop)
    requires AllCalls(done) && forall id | id in order :: id in s.calls
  {
    if !Matches(cfg, done, s.calls) then Ends(s, t, ProtocolViolation)
    else if s.iterations < cfg.maxIterations && s.toolCalls + |s.calls| <= cfg.maxCalls
    then ExecutedBatch(cfg, s, order, routed, t)
    else if s.refusals < 2 then RefusedBatch(s, order, sends, t)
    else Ends(s, t, GraceExceeded)
  }

  lemma MatchedHasShape(cfg: Config, s: Loop, ending: Loop, done: seq<DoneCall>, order: seq<CallId>, routed: set<Text>,
                        sends: nat, t: Loop)
    requires s.verdict.Running? && AllCalls(done) && Matches(cfg, done, s.calls) && forall id | id in order :: id in s.calls
    requires ending == s.(endAfter := ending.endAfter)
    requires t == if ToolBudgetExhausted(cfg, s.iterations, s.toolCalls, |s.calls|) then Refuse(ending, order, sends)
                  else Dispatch(cfg, ending, order, routed)
    ensures CallsShape(cfg, s, done, order, routed, sends, t)
  {
    RefuseShape(ending, order, sends);
    DispatchShape(cfg, ending, order, routed);
  }

  lemma CallsHaveShape(cfg: Config, s: Loop, done: seq<DoneCall>, order: seq<CallId>, routed: set<Text>, sends: nat)
    requires s.verdict.Running? && AllCalls(done) && forall id | id in order :: id in s.calls
    ensures CallsShape(cfg, s, done, order, routed, sends, OnCalls(cfg, s, done, order, routed, sends))
  {
    if Matches(cfg, done, s.calls) {
      MatchedHasShape(cfg, s, s.(endAfter := s.endAfter || EndsConversation(done)), done, order, routed, sends,
                      OnCalls(cfg, s, done, order, routed, sends));
    }
  }

  /** No other response is being followed. */
  predicate Follows(s: Loop, responseId: Text) { s.active.Some? ==> s.active.value == responseId }

  /** A completed response, and not somebody else's, lists calls. */
  ghost predicate ListsCalls(s: Loop, e: Event) {
    e.ResponseDone? && e.status.Completed? && Follows(s, e.responseId) && DoneCalls(e.output) != []
  }

  lemma BatchHasShape(cfg: Config, s: Loop, e: Event)
    requires s.verdict.Running? && Enabled(s, e) && ListsCalls(s, e)
    ensures AllCalls(DoneCalls(e.output))
    ensures CallsShape(cfg, s, DoneCalls(e.output), e.order, e.routed, e.sends, Step(cfg, s, e))
  {
    DoneCallsAreCalls(e.output);
    CallsHaveShape(cfg, s, DoneCalls(e.output), e.order, e.routed, e.sends);
  }

  // ---- Batches and counters ------------------------------------------------

  lemma RefusedCounters(s: Loop, order: seq<CallId>, sends: nat, t: Loop)
    requires CountersOk(s) && RefusedBatch(s, order, sends, t)
    ensures CountersOk(t)
  {
    OutputsAddNoBatch(Then(s.log, Calls(Refused, s.calls.Keys)), order, sends, Executed);
    OutputsAddNoBatch(Then(s.log, Calls(Refused, s.calls.Keys)), order, sends, Refused);
  }

  lemma BatchCounters(cfg: Config, s: Loop, e: Event, t: Loop)
    requires CountersOk(s) && s.verdict.Running? && ListsCalls(s, e) && AllCalls(DoneCalls(e.output)) && Enabled(s, e)
    requires CallsShape(cfg, s, DoneCalls(e.output), e.order, e.routed, e.sends, t)
    ensures t.verdict.Running? ==> CountersOk(t)
  {
    if t.verdict.Running? && t.iterations == s.iterations {
      RefusedCounters(s, e.order, e.sends, t);
    }
  }

  lemma CanceledCounters(s: Loop, responseId: Text)
    requires CountersOk(s)
    ensures CountersOk(OnCanceledDone(s, responseId))
  {
  }

  lemma EmptyCounters(s: Loop)
    requires CountersOk(s)
    ensures CountersOk(OnDoneWithoutCalls(s))
  {
  }

  lemma OtherDoneCounters(cfg: Config, s: Loop, e: Event)
    requires CountersOk(s) && e.ResponseDone? && Enabled(s, e) && !ListsCalls(s, e)
    ensures CountersOk(DoneStep(cfg, s, e))
  {
    CanceledCounters(s, e.responseId);
    EmptyCounters(s);
  }

  /** `t` is `s` once a finished call's output was sent, and the next response requested if it was the last. */
  ghost predicate FinishedCall(s: Loop, index: nat, sends: nat, t: Loop)
    requires index < |s.pending|
  {
    var told := Then(s.log, Calls(Output, {s.pending[index].callId}));
    && t.iterations == s.iterations && t.refusals == s.refusals && t.calls == s.calls && t.endAfter == s.endAfter
    && t.pending == s.pending[..index] + s.pending[index + 1..]
    && (if sends == 0 then t.log == s.log && t.verdict == Bailed(SendFailed)
        else if t.pending != [] then t.log == told && t.verdict.Running? && t.waiting
        else if sends == 1 then t.log == told && t.verdict == Bailed(SendFailed)
        else t.log == Then(told, ResponseCreate) && t.verdict.Running? && !t.waiting)
  }

  lemma FinishedShape(cfg: Config, s: Loop, index: nat, sends: nat)
    requires s.verdict.Running? && s.waiting && s.iterations <= cfg.maxIterations && index < |s.pending|
    ensures FinishedCall(s, index, sends, OnToolFinished(cfg, s, index, sends))
  {
  }

  lemma FinishedCounters(s: Loop, index: nat, sends: nat, t: Loop)
    requires CountersOk(s) && index < |s.pending| && FinishedCall(s, index, sends, t)
    ensures CountersOk(t)
  {
  }

  lemma PolledCounters(s: Loop, index: nat)
    requires CountersOk(s) && index < |s.pending|
    ensures CountersOk(OnToolPolled(s, index))
  {
  }

  lemma ArgumentsCounters(s: Loop, callId: CallId, responseId: Text, call: PendingFunctionCall)
    requires CountersOk(s)
    ensures CountersOk(OnArgumentsDone(s, callId, responseId, call))
  {
  }

  /** At most two quiet actions, which are no batches. */
  lemma QuietCounters(s: Loop, t: Loop)
    requires CountersOk(s) && Quiet(s.log, t.log) && t.iterations == s.iterations && t.refusals == s.refusals
    ensures CountersOk(t)
  {
  }

  /** One, then the received calls dropped. */
  lemma DropCounters(s: Loop, t: Loop)
    requires CountersOk(s) && t.iterations == s.iterations && t.refusals == s.refusals
    requires t.log.Then? && t.log.last == Calls(Dropped, s.calls.Keys) && Quiet(s.log, t.log.before)
    ensures CountersOk(t)
  {
    QuietCounters(s, t.(log := t.log.before));
  }

  lemma InterruptCounters(s: Loop)
    requires CountersOk(s) && LoopMoves(s.session)
    ensures CountersOk(OnInterrupt(s))
  {
    if s.session.Responding? {
      DropCounters(s, OnInterrupt(s));
    } else {
      QuietCounters(s, OnInterrupt(s));
    }
  }

  lemma CancelCounters(s: Loop)
    requires CountersOk(s) && LoopMoves(s.session)
    ensures CountersOk(OnCancel(s))
  {
    QuietCounters(s, OnCancel(s));
  }

  lemma SpeechCounters(s: Loop)
    requires CountersOk(s) && LoopMoves(s.session)
    ensures CountersOk(OnSpeechStarted(s)) && CountersOk(OnDrainElapsed(s))
  {
    QuietCounters(s, OnSpeechStarted(s));
    QuietCounters(s, OnDrainElapsed(s));
  }

  lemma CreatedCounters(s: Loop, responseId: Text)
    requires CountersOk(s) && LoopMoves(s.session)
    ensures CountersOk(OnResponseCreated(s, responseId))
  {
    QuietCounters(s, OnResponseCreated(s, responseId));
  }

  lemma OtherCounters(cfg: Config, s: Loop, e: Event)
    requires CountersOk(s) && s.verdict.Running? && LoopMoves(s.session) && AtHead(cfg, s)
    requires Enabled(s, e) && !e.ResponseDone?
    ensures CountersOk(Step(cfg, s, e))
  {
    match e
    case CancelChanged(_) => CancelCounters(s);
    case InterruptChanged(_) => InterruptCounters(s);
    case DrainElapsed => SpeechCounters(s);
    case SpeechStarted => SpeechCounters(s);
    case ResponseCreated(responseId) => CreatedCounters(s, responseId);
    case ToolPolled(index) => PolledCounters(s, index);
    case ToolFinished(index, sends) =>
      FinishedShape(cfg, s, index, sends);
      FinishedCounters(s, index, sends, Step(cfg, s, e));
    case ArgumentsDone(callId, responseId, call) => ArgumentsCounters(s, callId, responseId, call);
    case _ =>
  }

  lemma StepCounters(cfg: Config, s: Loop, e: Event)
    requires CountersOk(s) && Inv(cfg, s) && s.verdict.Running? && Enabled(s, e)
    ensures Step(cfg, s, e).verdict.Running? ==> CountersOk(Step(cfg, s, e))
  {
    if ListsCalls(s, e) {
      BatchHasShape(cfg, s, e);
      BatchCounters(cfg, s, e, Step(cfg, s, e));
    } else if e.ResponseDone? {
      OtherDoneCounters(cfg, s, e);
    } else {
      HeadFacts(cfg, s);
      OtherCounters(cfg, s, e);
    }
  }

  lemma {:induction false} RunCounters(cfg: Config, s: Loop, events: seq<Event>)
    requires CountersOk(s) && Inv(cfg, s) && Feasible(cfg, s, events)
    ensures Run(cfg, s, events).verdict.Running? ==> CountersOk(Run(cfg, s, events))
    decreases |events|
  {
    if events != [] {
      StepCounters(cfg, s, events[0]);
      StepKeeps(cfg, s, events[0]);
      if Step(cfg, s, events[0]).verdict.Running? {
        RunCounters(cfg, Step(cfg, s, events[0]), events[1..]);
      }
    }
  }

  // ---- Executed or refused -------------------------------------------------

  /** The call ids a response.done lists. */
  ghost function ListedIds(output: seq<OutputItem>): set<CallId> {
    set i | 0 <= i < |output| && output[i].FunctionCall? :: output[i].callId
  }

  /** The calls listed are complete and exactly the received ones, each listed once. */
  ghost predicate ListsReceived(s: Loop, e: Event)
    requires e.ResponseDone?
  {
    var done := DoneCalls(e.output);
    && AllCalls(done)
    && (forall i, j | 0 <= i < j < |done| :: done[i].item.callId != done[j].item.callId)
    && (forall i | 0 <= i < |done| :: done[i].item.status.Completed?)
    && (forall i | 0 <= i < |done| :: done[i].item.callId in s.calls && s.calls[done[i].item.callId] == Listed(done, i))
    && (forall id | id in s.calls :: exists i | 0 <= i < |done| :: done[i].item.callId == id)
  }

  ghost predicate ProperBatch(cfg: Config, s: Loop, e: Event) {
    ListsCalls(s, e) && ListsReceived(s, e) && |DoneCalls(e.output)| <= cfg.maxCalls
  }

  ghost predicate WithinLimits(cfg: Config, s: Loop, e: Event)
    requires e.ResponseDone?
  {
    Batches(s.log, Executed) < cfg.maxIterations && Total(s.log, Executed) + |DoneCalls(e.output)| <= cfg.maxCalls
  }

  /** From `s` to `t` the history records `kind` for the ids listed, and for no other. */
  ghost predicate Records(s: Loop, t: Loop, kind: Kind, ids: set<CallId>) {
    forall id :: Times(t.log, kind, id) == Times(s.log, kind, id) + One(id in ids)
  }

  ghost predicate Executes(s: Loop, e: Event, t: Loop)
    requires e.ResponseDone?
  {
    && t.verdict.Running? && t.waiting && t.calls == map[] && t.iterations == s.iterations + 1 && !t.responseArmed
    && Records(s, t, Executed, ListedIds(e.output)) && Records(s, t, Refused, {}) && Records(s, t, Output, {})
    && Creates(t.log) == Creates(s.log)
  }

  /** Each listed call is answered with a refusal, and the next response requested, as far as sends go. */
  ghost predicate Refuses(s: Loop, e: Event, t: Loop)
    requires e.ResponseDone?
  {
    && Records(s, t, Executed, {}) && Records(s, t, Refused, ListedIds(e.output))
    && Records(s, t, Output, set k | 0 <= k < |e.order| && k < e.sends :: e.order[k])
    && (forall id :: id in e.order <==> id in ListedIds(e.output))
    && t.calls == map[] && t.pending == s.pending
    && (t.verdict.Running? <==> e.sends > |DoneCalls(e.output)|)
    && (if t.verdict.Running? then t.active.None? && t.responseArmed else t.verdict == Bailed(SendFailed))
    && Creates(t.log) == Creates(s.log) + One(t.verdict.Running?)
  }

  lemma ListedAreReceived(s: Loop, e: Event)
    requires e.ResponseDone? && ListsReceived(s, e)
    ensures ListedIds(e.output) == s.calls.Keys
  {
    var done := DoneCalls(e.output);
    forall id ensures id in ListedIds(e.output) <==> id in s.calls {
      if i :| 0 <= i < |e.output| && e.output[i].FunctionCall? && e.output[i].callId == id {
        DoneCallsListed(e.output, DoneCall(i, e.output[i]));
        assert DoneCall(i, e.output[i]) in done;
      }
      if i :| 0 <= i < |done| && done[i].item.callId == id {
        DoneCallsListed(e.output, done[i]);
        assert done[i] in done;
      }
    }
  }

  lemma {:induction false} OutputsGoInOrder(log: History, order: seq<CallId>, sends: nat, id: CallId)
    requires forall i, j | 0 <= i < j < |order| :: order[i] != order[j]
    ensures Times(WithOutputs(log, order, sends), Output, id) ==
            Times(log, Output, id) + One(exists k :: 0 <= k < |order| && k < sends && order[k] == id)
    decreases |order|
  {
    if order != [] && sends > 0 {
      var rest := order[1..];
      OutputsGoInOrder(Then(log, Calls(Output, {order[0]})), rest, sends - 1, id);
      if k :| 0 <= k < |rest| && k < sends - 1 && rest[k] == id {
        assert order[k + 1] == id;
      }
      if k :| 0 <= k < |order| && k < sends && order[k] == id {
        assert k > 0 ==> rest[k - 1] == id;
      }
    }
  }

  lemma RefusedTimes(s: Loop, e: Event, t: Loop, id: CallId)
    requires e.ResponseDone? && DrainOrder(e.order, s.calls) && RefusedBatch(s, e.order, e.sends, t)
    ensures Times(t.log, Executed, id) == Times(s.log, Executed, id)
    ensures Times(t.log, Refused, id) == Times(s.log, Refused, id) + One(id in s.calls)
    ensures Times(t.log, Output, id) ==
            Times(s.log, Output, id) + One(id in set k | 0 <= k < |e.order| && k < e.sends :: e.order[k])
  {
    var noted := Then(s.log, Calls(Refused, s.calls.Keys));
    OutputsSent(noted, e.order, e.sends);
    OutputsGoInOrder(noted, e.order, e.sends, id);
  }

  lemma RefusedRefuses(s: Loop, e: Event, t: Loop)
    requires e.ResponseDone? && DrainOrder(e.order, s.calls) && RefusedBatch(s, e.order, e.sends, t)
    requires |DoneCalls(e.output)| == |e.order| && s.calls.Keys == ListedIds(e.output)
    ensures Refuses(s, e, t)
  {
    forall id ensures Times(t.log, Executed, id) == Times(s.log, Executed, id)
                      && Times(t.log, Refused, id) == Times(s.log, Refused, id) + One(id in s.calls)
                      && Times(t.log, Output, id) ==
                         Times(s.log, Output, id) + One(id in set k | 0 <= k < |e.order| && k < e.sends :: e.order[k])
    {
      RefusedTimes(s, e, t, id);
    }
    OutputsSent(Then(s.log, Calls(Refused, s.calls.Keys)), e.order, e.sends);
  }

  lemma ExecutedExecutes(cfg: Config, s: Loop, e: Event, t: Loop)
    requires e.ResponseDone? && Enabled(s, e) && ExecutedBatch(cfg, s, e.order, e.routed, t)
    requires s.calls.Keys == ListedIds(e.output)
    ensures Executes(s, e, t)
  {
  }

  /**
   A completed response.done that lists calls, in any reachable state: they are executed
   exactly if they are the received ones, fewer batches were executed than the limit, and
   these calls fit into what is left of the budget. Otherwise the first two such batches are
   refused and answered, the third ends the loop, and a list that does not match is a
   violation.
   */
  lemma BatchDecided(cfg: Config, events: seq<Event>, s: Loop, e: Event)
    requires Happens(cfg, events, s) && s.verdict.Running? && Enabled(s, e) && ListsCalls(s, e)
    ensures var t := Step(cfg, s, e);
            if !ProperBatch(cfg, s, e) then Ends(s, t, ProtocolViolation)
            else if WithinLimits(cfg, s, e) then Executes(s, e, t)
            else if Batches(s.log, Refused) < 2 then Refuses(s, e, t)
            else Ends(s, t, GraceExceeded)
  {
    Reached(cfg, events, s);
    HeadFacts(cfg, s);
    StartOk(cfg);
    RunCounters(cfg, Start(), events);
    BatchHasShape(cfg, s, e);
    BatchDecidedBy(cfg, s, e, Step(cfg, s, e));
  }

  lemma ProperIsMatch(cfg: Config, s: Loop, e: Event)
    requires ListsCalls(s, e) && AllCalls(DoneCalls(e.output))
    ensures ProperBatch(cfg, s, e) <==> Matches(cfg, DoneCalls(e.output), s.calls)
  {
    MatchesIsBijection(cfg, DoneCalls(e.output), s.calls);
  }

  lemma BatchDecidedBy(cfg: Config, s: Loop, e: Event, t: Loop)
    requires ListsCalls(s, e) && AllCalls(DoneCalls(e.output)) && DrainOrder(e.order, s.calls)
    requires CallsShape(cfg, s, DoneCalls(e.output), e.order, e.routed, e.sends, t)
    requires CountersOk(s) && s.toolCalls == Total(s.log, Executed)
    ensures if !ProperBatch(cfg, s, e) then Ends(s, t, ProtocolViolation)
            else if WithinLimits(cfg, s, e) then Executes(s, e, t)
            else if Batches(s.log, Refused) < 2 then Refuses(s, e, t)
            else Ends(s, t, GraceExceeded)
  {
    ProperIsMatch(cfg, s, e);
    if ProperBatch(cfg, s, e) {
      ListedAreReceived(s, e);
      DrainOrderSize(e.order, s.calls);
      if WithinLimits(cfg, s, e) {
        ExecutedExecutes(cfg, s, e, t);
      } else if s.refusals < 2 {
        RefusedRefuses(s, e, t);
      }
    }
  }

  /** So a batch is executed if and only if it is the received one and within both limits. */
  lemma ExecutedIff(cfg: Config, events: seq<Event>, s: Loop, e: Event)
    requires Happens(cfg, events, s) && s.verdict.Running? && Enabled(s, e) && ListsCalls(s, e)
    ensures var t := Step(cfg, s, e);
            && (Executes(s, e, t) <==> ListsReceived(s, e) && WithinLimits(cfg, s, e))
            && ((exists id | id in ListedIds(e.output) :: Times(t.log, Executed, id) > Times(s.log, Executed, id))
                <==> ListsReceived(s, e) && WithinLimits(cfg, s, e))
  {
    BatchDecided(cfg, events, s, e);
    DoneCallsAreCalls(e.output);
    DoneCallsListed(e.output, DoneCalls(e.output)[0]);
    assert DoneCalls(e.output)[0].item.callId in ListedIds(e.output);
  }
}
