/**
 The promises of the tool-call protocol, for one connection and any sequence of
 server events, timers, tool completions and user interrupts.
 */
module ToolTheorems {
  import opened Options
  import opened Histories
  import opened ToolProtocol
  import opened ToolSafety

  ghost predicate Happens(cfg: Config, events: seq<Event>, s: Loop) {
    Feasible(cfg, Start(), events) && s == Run(cfg, Start(), events)
  }

  lemma Reached(cfg: Config, events: seq<Event>, s: Loop)
    requires Happens(cfg, events, s)
    ensures Inv(cfg, s)
  {
    StartOk(cfg);
    RunKeeps(cfg, Start(), events);
  }

  // ---- Call ids ------------------------------------------------------------

  /** Executed, and its output sent. */
  ghost predicate IsAnswered(log: History, id: CallId) {
    Times(log, Executed, id) == 1 && Times(log, Output, id) == 1
  }

  /** At every loop head each seen id is in exactly one of five places, an unseen id in none. */
  lemma SeenIdsSplit(cfg: Config, events: seq<Event>, s: Loop, id: CallId)
    requires Happens(cfg, events, s) && s.verdict.Running?
    ensures One(id in s.seen) ==
            One(id in s.calls) + One(id in PendingIds(s.pending)) + One(IsAnswered(s.log, id)) +
            One(Times(s.log, Refused, id) == 1) + One(Times(s.log, Dropped, id) == 1)
    ensures Times(s.log, Refused, id) == 1 ==> Times(s.log, Output, id) == 1
    ensures Times(s.log, Dropped, id) == 1 || id in s.calls || id in PendingIds(s.pending) || id !in s.seen ==>
              Times(s.log, Output, id) == 0
    ensures Times(s.log, Executed, id) == One(id in PendingIds(s.pending)) + One(IsAnswered(s.log, id))
  {
    Reached(cfg, events, s);
    assert Good(cfg, s, id);
  }

  /** The loop waits exactly while tools run, and then no received call is left over. */
  lemma WaitsForTools(cfg: Config, events: seq<Event>, s: Loop)
    requires Happens(cfg, events, s) && s.verdict.Running?
    ensures s.waiting <==> s.pending != []
    ensures s.pending != [] ==> s.calls == map[]
    ensures forall i, j | 0 <= i < j < |s.pending| :: s.pending[i].callId != s.pending[j].callId
  {
    Reached(cfg, events, s);
    HeadFacts(cfg, s);
  }

  /** Whether or not the loop has ended: no id is received, acted on, answered or effective twice. */
  lemma CallIdsUsedOnce(cfg: Config, events: seq<Event>, s: Loop, id: CallId)
    requires Happens(cfg, events, s)
    ensures Times(s.log, Received, id) <= 1
    ensures Times(s.log, Executed, id) + Times(s.log, Refused, id) + Times(s.log, Dropped, id) <= 1
    ensures Times(s.log, Output, id) <= Times(s.log, Executed, id) + Times(s.log, Refused, id)
    ensures Times(s.log, Effect, id) <= Times(s.log, Executed, id)
    ensures Times(s.log, Effect, id) > 0 ==> s.effects
  {
    Reached(cfg, events, s);
    assert Good(cfg, s, id);
    NoEffectMeansNone(s.log, id);
  }

  lemma {:induction false} NoEffectMeansNone(log: History, id: CallId)
    ensures !AnyEffect(log) ==> Times(log, Effect, id) == 0
  {
    if log.Then? {
      NoEffectMeansNone(log.before, id);
    }
  }

  // ---- Budgets -------------------------------------------------------------

  /** However long the server asks for tools, what one connection sends is bounded. */
  lemma BudgetsHold(cfg: Config, events: seq<Event>, s: Loop)
    requires Happens(cfg, events, s)
    ensures Total(s.log, Executed) <= cfg.maxCalls
    ensures Creates(s.log) <= cfg.maxIterations + TOOL_BUDGET_EXHAUSTED_GRACE
    ensures Total(s.log, Output) <= (1 + TOOL_BUDGET_EXHAUSTED_GRACE) * cfg.maxCalls
    ensures s.verdict != Bailed(IterationLimit)
    ensures s.verdict.Running? ==> s.toolCalls == Total(s.log, Executed) && s.iterations <= cfg.maxIterations
  {
    Reached(cfg, events, s);
    assert Good(cfg, s, CallId(""));
    assert Quota(cfg, 2) == Quota(cfg, 1) + cfg.maxCalls && Quota(cfg, 1) == cfg.maxCalls;
    assert Quota(cfg, TOOL_BUDGET_EXHAUSTED_GRACE) == 2 * cfg.maxCalls;
  }

  lemma {:induction false} BatchedEarlier(early: History, late: History)
    requires Batched(late) && Earlier(early, late)
    ensures Batched(early)
  {
    if early != late {
      BatchedEarlier(early, late.before);
    }
  }

  /** When a response is requested, every call executed or refused before is already answered. */
  lemma RequestsFollowOutputs(cfg: Config, events: seq<Event>, s: Loop, sent: History, id: CallId)
    requires Happens(cfg, events, s)
    requires Earlier(Then(sent, ResponseCreate), s.log)
    ensures Times(sent, Executed, id) + Times(sent, Refused, id) == Times(sent, Output, id)
  {
    Reached(cfg, events, s);
    assert Good(cfg, s, id);
    BatchedEarlier(Then(sent, ResponseCreate), s.log);
    assert Settled(sent);
  }

  // ---- response.done -------------------------------------------------------

  /** The call the list names at position `i`. */
  ghost function Listed(done: seq<DoneCall>, i: nat): PendingFunctionCall
    requires i < |done| && AllCalls(done)
  {
    PendingFunctionCall(done[i].item.id, done[i].outputIndex, done[i].item.name, done[i].item.arguments)
  }

  lemma {:induction false} DoneIdsSize(done: seq<DoneCall>)
    requires AllCalls(done) && DistinctIds(done)
    ensures |set i | 0 <= i < |done| :: done[i].item.callId| == |done|
  {
    if done != [] {
      var last := |done| - 1;
      var fewer := done[..last];
      DoneIdsSize(fewer);
      var ids := set i | 0 <= i < |fewer| :: fewer[i].item.callId;
      assert (set i | 0 <= i < |done| :: done[i].item.callId) == ids + {done[last].item.callId} by {
        assert forall i | 0 <= i < last :: fewer[i] == done[i];
      }
      assert done[last].item.callId !in ids;
    }
  }

  lemma SameSizeSubset<T>(a: set<T>, b: set<T>)
    requires a <= b && |a| == |b|
    ensures a == b
  {
    if x :| x in b && x !in a {
      assert a <= b - {x};
      SubsetSize(a, b - {x});
    }
  }

  lemma {:induction false} SubsetSize<T>(a: set<T>, b: set<T>)
    requires a <= b
    ensures |a| <= |b|
    decreases |a|
  {
    if x :| x in a {
      SubsetSize(a - {x}, b - {x});
    }
  }

  /**
   The response.done check is a bijection: it passes exactly when the listed
   calls are the received ones, each listed once, all complete, at most `maxCalls`.
   */
  lemma MatchesIsBijection(cfg: Config, done: seq<DoneCall>, calls: map<CallId, PendingFunctionCall>)
    requires AllCalls(done)
    ensures Matches(cfg, done, calls) <==>
            && |done| <= cfg.maxCalls
            && (forall i, j | 0 <= i < j < |done| :: done[i].item.callId != done[j].item.callId)
            && (forall i | 0 <= i < |done| :: done[i].item.status.Completed?)
            && (forall i | 0 <= i < |done| :: done[i].item.callId in calls && calls[done[i].item.callId] == Listed(done, i))
            && (forall id | id in calls :: exists i | 0 <= i < |done| :: done[i].item.callId == id)
  {
    if DistinctIds(done) && forall i | 0 <= i < |done| :: done[i].item.callId in calls {
      var ids := set i | 0 <= i < |done| :: done[i].item.callId;
      DoneIdsSize(done);
      assert ids <= calls.Keys;
      if |done| == |calls| {
        SameSizeSubset(ids, calls.Keys);
        assert forall id | id in calls :: id in ids;
      }
      if forall id | id in calls :: exists i | 0 <= i < |done| :: done[i].item.callId == id {
        assert calls.Keys <= ids;
        assert ids == calls.Keys;
      }
    }
  }

  /** The list read off a response.done is its function calls with their positions. */
  lemma {:induction false} DoneCallsListed(output: seq<OutputItem>, c: DoneCall)
    ensures c in DoneCalls(output) <==>
            c.outputIndex < |output| && c.item == output[c.outputIndex] && c.item.FunctionCall?
  {
    if output != [] {
      DoneCallsListed(output[..|output| - 1], c);
    }
  }

  ghost predicate InOrder(done: seq<DoneCall>) {
    forall i, j | 0 <= i < j < |done| :: done[i].outputIndex < done[j].outputIndex
  }

  /** The list keeps the order of the output. */
  lemma {:induction false} DoneCallsInOrder(output: seq<OutputItem>)
    ensures InOrder(DoneCalls(output))
  {
    if output != [] {
      var fewer := output[..|output| - 1];
      DoneCallsInOrder(fewer);
      var done := DoneCalls(fewer);
      forall i | 0 <= i < |done| ensures done[i].outputIndex < |fewer| {
        assert done[i] in done;
        DoneCallsListed(fewer, done[i]);
      }
      var last := DoneCall(|fewer|, output[|fewer|]);
      assert InOrder(done + [last]);
    }
  }

  lemma MatchedFuturesAreListed(cfg: Config, done: seq<DoneCall>, calls: map<CallId, PendingFunctionCall>,
                                order: seq<CallId>, routed: set<Text>, futures: seq<ToolFuture>)
    requires AllCalls(done) && Matches(cfg, done, calls) && DrainOrder(order, calls)
    requires futures == Futures(cfg, routed, calls, order)
    ensures |futures| == |done|
    ensures forall i | 0 <= i < |done| :: Future(cfg, routed, done[i].item.callId, Listed(done, i)) in futures
    ensures forall f | f in futures ::
              exists i | 0 <= i < |done| :: f == Future(cfg, routed, done[i].item.callId, Listed(done, i))
  {
    MatchesIsBijection(cfg, done, calls);
    DrainOrderSize(order, calls);
    forall i | 0 <= i < |done| ensures Future(cfg, routed, done[i].item.callId, Listed(done, i)) in futures {
      var id := done[i].item.callId;
      assert id in order;
      var k :| 0 <= k < |order| && order[k] == id;
      assert futures[k] == Future(cfg, routed, id, calls[id]);
    }
    forall f | f in futures
      ensures exists i | 0 <= i < |done| :: f == Future(cfg, routed, done[i].item.callId, Listed(done, i))
    {
      var k :| 0 <= k < |futures| && futures[k] == f;
      assert order[k] in order;
      var i :| 0 <= i < |done| && done[i].item.callId == order[k];
      assert f == Future(cfg, routed, done[i].item.callId, Listed(done, i));
    }
  }

  /** The futures are one for each listed call, carrying what it lists, and no other. */
  ghost predicate OneFutureEach(cfg: Config, routed: set<Text>, done: seq<DoneCall>, futures: seq<ToolFuture>) {
    && AllCalls(done)
    && |futures| == |done|
    && (forall i | 0 <= i < |done| :: Future(cfg, routed, done[i].item.callId, Listed(done, i)) in futures)
    && (forall f | f in futures ::
          exists i | 0 <= i < |done| :: f == Future(cfg, routed, done[i].item.callId, Listed(done, i)))
  }

  /**
   When a response.done starts tools, the futures started are one for each call
   it lists, carrying the item, position, name and arguments it lists.
   */
  lemma DispatchedCallsAreListed(cfg: Config, events: seq<Event>, s: Loop, e: Event)
    requires Happens(cfg, events, s) && s.verdict.Running? && e.ResponseDone? && Enabled(s, e)
    requires Step(cfg, s, e).iterations == s.iterations + 1
    ensures OneFutureEach(cfg, e.routed, DoneCalls(e.output), Step(cfg, s, e).pending)
  {
    var done := DoneCalls(e.output);
    DoneCallsAreCalls(e.output);
    if !Starts(cfg, s, e) {
      OthersKeepIterations(cfg, s, e);
    }
    WaitsForTools(cfg, events, s);
    assert s.pending + Futures(cfg, e.routed, s.calls, e.order) == Futures(cfg, e.routed, s.calls, e.order);
    MatchedFuturesAreListed(cfg, done, s.calls, e.order, e.routed, Futures(cfg, e.routed, s.calls, e.order));
  }

  lemma RefusalKeepsIterations(s: Loop, order: seq<CallId>, sends: nat)
    ensures Refuse(s, order, sends).iterations == s.iterations
  {
  }

  lemma CanceledKeepsIterations(s: Loop, responseId: Text)
    ensures OnCanceledDone(s, responseId).iterations == s.iterations
  {
  }

  lemma EmptyKeepsIterations(s: Loop)
    ensures OnDoneWithoutCalls(s).iterations == s.iterations
  {
  }

  function DoneStep(cfg: Config, s: Loop, e: Event): Loop
    requires e.ResponseDone? && Enabled(s, e)
  {
    OnResponseDone(cfg, s, e.responseId, e.status, e.output, e.order, e.routed, e.sends)
  }

  /** The test under which a response.done starts tools. */
  ghost predicate Starts(cfg: Config, s: Loop, e: Event)
    requires e.ResponseDone?
  {
    && e.status.Completed? && !Conflicts(s.active, e.responseId)
    && DoneCalls(e.output) != [] && AllCalls(DoneCalls(e.output))
    && Matches(cfg, DoneCalls(e.output), s.calls)
    && !ToolBudgetExhausted(cfg, s.iterations, s.toolCalls, |s.calls|)
  }

  lemma OthersKeepIterations(cfg: Config, s: Loop, e: Event)
    requires e.ResponseDone? && Enabled(s, e) && !Starts(cfg, s, e)
    ensures DoneStep(cfg, s, e).iterations == s.iterations
  {
    var done := DoneCalls(e.output);
    DoneCallsAreCalls(e.output);
    if e.status.Canceled? {
      CanceledKeepsIterations(s, e.responseId);
    } else if done == [] {
      EmptyKeepsIterations(s);
    } else {
      RefusalKeepsIterations(s.(endAfter := s.endAfter || EndsConversation(done)), e.order, e.sends);
    }
  }
}
