/**
 What every run of the event loop keeps: no call id is used twice, the seen ids
 split into received, pending, answered, refused and dropped, the budgets hold,
 and every response request follows all outputs of its batch.
 */
module ToolSafety {
  import opened Options
  import opened Histories
  import opened SessionStates
  import opened ToolProtocol

  // ---- Reading the history -------------------------------------------------

  /** How often the history records `kind` for `id`. */
  ghost function Times(log: History, kind: Kind, id: CallId): nat {
    match log
    case Empty => 0
    case Then(before, a) =>
      Times(before, kind, id) + if a.Calls? && a.kind == kind && id in a.ids then 1 else 0
  }

  /** How many ids, with repetition, the history records for `kind`. */
  ghost function Total(log: History, kind: Kind): nat {
    match log
    case Empty => 0
    case Then(before, a) => Total(before, kind) + if a.Calls? && a.kind == kind then |a.ids| else 0
  }

  ghost function Creates(log: History): nat {
    match log
    case Empty => 0
    case Then(before, a) => Creates(before) + if a.ResponseCreate? then 1 else 0
  }

  ghost predicate AnyEffect(log: History) {
    match log
    case Empty => false
    case Then(before, a) => AnyEffect(before) || (a.Calls? && a.kind.Effect? && a.ids != {})
  }

  /** Every call executed or refused so far has been answered. */
  ghost predicate Settled(log: History) {
    forall id :: Times(log, Executed, id) + Times(log, Refused, id) == Times(log, Output, id)
  }

  /** Each response request was sent only once every earlier call was answered. */
  ghost predicate Batched(log: History) {
    match log
    case Empty => true
    case Then(before, a) => Batched(before) && (a.ResponseCreate? ==> Settled(before))
  }

  // ---- The invariant -------------------------------------------------------

  ghost function PendingIds(pending: seq<ToolFuture>): set<CallId> {
    set i | 0 <= i < |pending| :: pending[i].callId
  }

  /** Where one call id stands: what was received is waiting, acted on or dropped, once. */
  ghost predicate Accounted(s: Loop, id: CallId) {
    && Times(s.log, Received, id) == One(id in s.seen)
    && Times(s.log, Received, id) ==
       One(id in s.calls) + Times(s.log, Executed, id) + Times(s.log, Refused, id) + Times(s.log, Dropped, id)
    && Times(s.log, Executed, id) + Times(s.log, Refused, id) ==
       Times(s.log, Output, id) + One(id in PendingIds(s.pending))
    && (id in PendingIds(s.pending) ==> Times(s.log, Executed, id) == 1)
    && Times(s.log, Effect, id) <= Times(s.log, Executed, id)
  }

  /** The running futures: one per id, and a native one has no effect before its first poll. */
  ghost predicate PendingOk(s: Loop) {
    && (forall i, j | 0 <= i < j < |s.pending| :: s.pending[i].callId != s.pending[j].callId)
    && forall i | 0 <= i < |s.pending| && s.pending[i].route.Native? && !s.pending[i].started ::
         Times(s.log, Effect, s.pending[i].callId) == 0
  }

  /** `batches * cfg.maxCalls`: the most calls that many refused batches can hold. */
  ghost function Quota(cfg: Config, batches: nat): nat {
    if batches == 0 then 0 else Quota(cfg, batches - 1) + cfg.maxCalls
  }

  /** The counters of the loop, read off the history. */
  ghost predicate Counted(cfg: Config, s: Loop) {
    && s.toolCalls == Total(s.log, Executed) <= cfg.maxCalls
    && Total(s.log, Output) + |s.pending| == Total(s.log, Executed) + Total(s.log, Refused)
    && Total(s.log, Refused) <= Quota(cfg, s.refusals)
    && s.refusals <= TOOL_BUDGET_EXHAUSTED_GRACE
    && s.iterations <= cfg.maxIterations
    && Creates(s.log) + One(s.waiting) == s.iterations + s.refusals
  }

  /** One id in one connection's history, whether or not its loop has ended. */
  ghost predicate Fair(log: History, id: CallId) {
    && Times(log, Output, id) <= Times(log, Executed, id) + Times(log, Refused, id)
    && Times(log, Executed, id) + Times(log, Refused, id) + Times(log, Dropped, id) <= Times(log, Received, id) <= 1
    && Times(log, Effect, id) <= Times(log, Executed, id)
  }

  ghost predicate WithinBudget(cfg: Config, log: History) {
    && Total(log, Executed) <= cfg.maxCalls
    && Total(log, Refused) <= Quota(cfg, TOOL_BUDGET_EXHAUSTED_GRACE)
    && Total(log, Output) <= Total(log, Executed) + Total(log, Refused)
    && Creates(log) <= cfg.maxIterations + TOOL_BUDGET_EXHAUSTED_GRACE
    && Batched(log)
  }

  ghost predicate AtHead(cfg: Config, s: Loop) {
    && (s.session.Capturing? || s.session.Responding? || s.session.Ready?)
    && (s.waiting <==> s.pending != [])
    && (s.waiting ==> s.calls == map[])
    && PendingOk(s)
    && Counted(cfg, s)
  }

  /** The part of the invariant that names no call id. */
  ghost predicate Global(cfg: Config, s: Loop) {
    && WithinBudget(cfg, s.log)
    && s.effects == AnyEffect(s.log)
    && s.verdict != Bailed(IterationLimit)
    && (s.verdict.Running? ==> AtHead(cfg, s))
  }

  /** The part of the invariant about one call id. */
  ghost predicate Local(s: Loop, id: CallId) {
    Fair(s.log, id) && (s.verdict.Running? ==> Accounted(s, id))
  }

  ghost predicate Good(cfg: Config, s: Loop, id: CallId) {
    Global(cfg, s) && Local(s, id)
  }

  ghost predicate Inv(cfg: Config, s: Loop) {
    forall id :: Good(cfg, s, id)
  }

  // ---- Steps that leave the call ids alone ---------------------------------

  ghost predicate IsQuiet(a: Action) { !a.Calls? && !a.ResponseCreate? }

  /** `b` is `a` with at most two more actions, which name no call id and request no response. */
  ghost predicate Quiet(a: History, b: History) {
    || b == a
    || (b.Then? && IsQuiet(b.last) && b.before == a)
    || (b.Then? && IsQuiet(b.last) && b.before.Then? && IsQuiet(b.before.last) && b.before.before == a)
  }

  lemma QuietBooks(a: History, b: History)
    requires Quiet(a, b)
    ensures forall kind, id :: Times(a, kind, id) == Times(b, kind, id)
    ensures forall kind :: Total(a, kind) == Total(b, kind)
    ensures Creates(a) == Creates(b) && AnyEffect(a) == AnyEffect(b) && Batched(a) == Batched(b)
  {
  }

  ghost predicate SameCalls(s: Loop, t: Loop) {
    && t.calls == s.calls && t.seen == s.seen && t.pending == s.pending && t.waiting == s.waiting
    && t.iterations == s.iterations && t.toolCalls == s.toolCalls && t.refusals == s.refusals
    && (t.session.Capturing? || t.session.Responding? || t.session.Ready?)
  }

  lemma Unrelated(cfg: Config, s: Loop, t: Loop)
    requires Inv(cfg, s) && s.verdict.Running?
    requires Quiet(s.log, t.log) && t.effects == s.effects && t.verdict != Bailed(IterationLimit)
    requires t.verdict.Running? ==> SameCalls(s, t)
    ensures Inv(cfg, t)
  {
    HeadFacts(cfg, s);
    QuietBooks(s.log, t.log);
    forall id ensures Local(t, id) {
      assert Good(cfg, s, id);
    }
  }

  /** Every move of the loop, except the drain arm's from Capturing to Ready, is accepted. */
  ghost predicate LoopMoves(session: SessionState) {
    && Accepts(session, Cancelling) && Accepts(Cancelling, ShuttingDown) && Accepts(session, ShuttingDown)
    && Accepts(session, Capturing) && Accepts(session, Responding)
    && (Accepts(session, Ready) <==> !session.Capturing?)
  }

  lemma HeadFacts(cfg: Config, s: Loop)
    requires Inv(cfg, s) && s.verdict.Running?
    ensures AtHead(cfg, s) && WithinBudget(cfg, s.log) && s.effects == AnyEffect(s.log)
    ensures LoopMoves(s.session)
  {
    assert Good(cfg, s, CallId(""));
  }

  /** `t` is `s` with its call table dropped, after at most two quiet actions. */
  ghost predicate Cleared(s: Loop, t: Loop) {
    && t.log.Then? && t.log.last == Calls(Dropped, s.calls.Keys) && Quiet(s.log, t.log.before)
    && t.effects == s.effects && t.calls == map[] && SameCalls(s, t.(calls := s.calls))
    && t.verdict.Running?
  }

  lemma ClearedGlobal(cfg: Config, s: Loop, t: Loop)
    requires Inv(cfg, s) && s.verdict.Running? && Cleared(s, t)
    ensures Global(cfg, t)
  {
    HeadFacts(cfg, s);
    QuietBooks(s.log, t.log.before);
  }

  lemma Clears(cfg: Config, s: Loop, t: Loop)
    requires Inv(cfg, s) && s.verdict.Running? && Cleared(s, t)
    ensures Inv(cfg, t)
  {
    ClearedGlobal(cfg, s, t);
    QuietBooks(s.log, t.log.before);
    forall id ensures Local(t, id) {
      assert Good(cfg, s, id);
      BatchTimes(t.log.before, Dropped, s.calls.Keys, id);
    }
  }

  lemma InterruptKeeps(cfg: Config, s: Loop)
    requires Inv(cfg, s) && s.verdict.Running?
    ensures Inv(cfg, OnInterrupt(s))
  {
    HeadFacts(cfg, s);
    if s.session.Responding? {
      Clears(cfg, s, OnInterrupt(s));
    } else {
      Unrelated(cfg, s, OnInterrupt(s));
    }
  }

  lemma CanceledKeeps(cfg: Config, s: Loop, responseId: Text)
    requires Inv(cfg, s) && s.verdict.Running?
    ensures Inv(cfg, OnCanceledDone(s, responseId))
  {
    HeadFacts(cfg, s);
    if !Conflicts(s.active, responseId) {
      Clears(cfg, s, OnCanceledDone(s, responseId));
    }
  }

  lemma CancelKeeps(cfg: Config, s: Loop)
    requires Inv(cfg, s) && s.verdict.Running?
    ensures Inv(cfg, OnCancel(s))
  {
    HeadFacts(cfg, s);
    Unrelated(cfg, s, OnCancel(s));
  }

  lemma DrainKeeps(cfg: Config, s: Loop)
    requires Inv(cfg, s) && s.verdict.Running?
    ensures Inv(cfg, OnDrainElapsed(s))
  {
    HeadFacts(cfg, s);
    Unrelated(cfg, s, OnDrainElapsed(s));
  }

  lemma CreatedKeeps(cfg: Config, s: Loop, responseId: Text)
    requires Inv(cfg, s) && s.verdict.Running?
    ensures Inv(cfg, OnResponseCreated(s, responseId))
  {
    HeadFacts(cfg, s);
    Unrelated(cfg, s, OnResponseCreated(s, responseId));
  }

  lemma SpeechKeeps(cfg: Config, s: Loop)
    requires Inv(cfg, s) && s.verdict.Running?
    ensures Inv(cfg, OnSpeechStarted(s))
  {
    HeadFacts(cfg, s);
    Unrelated(cfg, s, OnSpeechStarted(s));
  }

  /** Leaving, failing, or changing nothing but `active` and a timer. */
  lemma PlainKeeps(cfg: Config, s: Loop, t: Loop)
    requires Inv(cfg, s) && s.verdict.Running?
    requires t.log == s.log && t.effects == s.effects && t.verdict != Bailed(IterationLimit)
    requires t.verdict.Running? ==> SameCalls(s, t)
    ensures Inv(cfg, t)
  {
    Unrelated(cfg, s, t);
  }

  /** The events whose arms move the session machine. */
  ghost predicate Moves(e: Event) {
    e.CancelChanged? || e.InterruptChanged? || e.DrainElapsed? || e.ResponseCreated? || e.SpeechStarted? || e.IdleElapsed?
  }

  lemma MoveKeeps(cfg: Config, s: Loop, e: Event)
    requires Inv(cfg, s) && s.verdict.Running? && Enabled(s, e) && Moves(e)
    ensures Inv(cfg, Step(cfg, s, e))
  {
    HeadFacts(cfg, s);
    match e
    case CancelChanged(stop) => if stop { CancelKeeps(cfg, s); }
    case InterruptChanged(ok) => if ok { InterruptKeeps(cfg, s); }
    case DrainElapsed => DrainKeeps(cfg, s);
    case ResponseCreated(responseId) => CreatedKeeps(cfg, s, responseId);
    case SpeechStarted => SpeechKeeps(cfg, s);
    case IdleElapsed => PlainKeeps(cfg, s, Leave(s, ShuttingDown));
  }

  lemma BailKeeps(cfg: Config, s: Loop, error: LoopError)
    requires Inv(cfg, s) && s.verdict.Running? && error != IterationLimit
    ensures Inv(cfg, Bail(s, error))
  {
    PlainKeeps(cfg, s, Bail(s, error));
  }

  lemma OtherKeeps(cfg: Config, s: Loop, e: Event)
    requires Inv(cfg, s) && s.verdict.Running? && Enabled(s, e) && !Moves(e)
    requires !e.ResponseDone? && !e.ArgumentsDone? && !e.ToolPolled? && !e.ToolFinished?
    ensures Inv(cfg, Step(cfg, s, e))
  {
    match e
    case ResponseElapsed => BailKeeps(cfg, s, ResponseTimeout);
    case CaptureEnded => BailKeeps(cfg, s, CaptureStopped);
    case TransportLost => BailKeeps(cfg, s, TransportError);
    case Undecodable => BailKeeps(cfg, s, ProtocolViolation);
    case AudioDelta => BailKeeps(cfg, s, ProtocolViolation);
    case ServerError => BailKeeps(cfg, s, ProtocolViolation);
    case TranscriptDone(responseId) => TimerKeeps(cfg, s, s.(active := Some(responseId)));
    case SpeechStopped => TimerKeeps(cfg, s, s.(responseArmed := true));
    case _ =>
  }

  lemma TimerKeeps(cfg: Config, s: Loop, t: Loop)
    requires Inv(cfg, s) && s.verdict.Running?
    requires t == s.(active := t.active, responseArmed := t.responseArmed)
    ensures Inv(cfg, t)
  {
    HeadFacts(cfg, s);
    PlainKeeps(cfg, s, t);
  }

  // ---- Tool futures --------------------------------------------------------

  /** `t` is `s` with one future marked as polled. */
  ghost predicate Polled(s: Loop, index: nat, t: Loop)
    requires index < |s.pending|
  {
    && t == s.(pending := t.pending, effects := t.effects, log := t.log)
    && t.pending == s.pending[index := s.pending[index].(started := true)]
  }

  lemma PolledIds(s: Loop, index: nat, t: Loop)
    requires index < |s.pending| && Polled(s, index, t)
    ensures forall i | 0 <= i < |s.pending| :: t.pending[i].callId == s.pending[i].callId
    ensures PendingIds(t.pending) == PendingIds(s.pending)
    ensures s.pending[index].callId in PendingIds(s.pending)
  {
    forall x ensures x in PendingIds(t.pending) <==> x in PendingIds(s.pending) {
      if i :| 0 <= i < |s.pending| && s.pending[i].callId == x {
        assert t.pending[i].callId == x;
      }
    }
  }

  ghost predicate PolledFirst(cfg: Config, s: Loop, index: nat, t: Loop) {
    && Inv(cfg, s) && s.verdict.Running? && Enabled(s, ToolPolled(index))
    && s.pending[index].route.Native? && Polled(s, index, t)
    && t.effects && t.log == Then(s.log, Calls(Effect, {s.pending[index].callId}))
  }

  lemma PolledGlobal(cfg: Config, s: Loop, index: nat, t: Loop)
    requires PolledFirst(cfg, s, index, t)
    ensures Global(cfg, t)
  {
    HeadFacts(cfg, s);
    PolledIds(s, index, t);
    assert PendingOk(t);
    assert Counted(cfg, t);
  }

  lemma PolledNative(cfg: Config, s: Loop, index: nat, t: Loop)
    requires PolledFirst(cfg, s, index, t)
    ensures Inv(cfg, t)
  {
    PolledGlobal(cfg, s, index, t);
    forall x ensures Local(t, x) {
      HeadFacts(cfg, s);
      PolledIds(s, index, t);
      assert Good(cfg, s, s.pending[index].callId);
      assert Good(cfg, s, x);
    }
  }

  lemma PolledOther(cfg: Config, s: Loop, index: nat, t: Loop)
    requires Inv(cfg, s) && s.verdict.Running? && Enabled(s, ToolPolled(index))
    requires !s.pending[index].route.Native? && Polled(s, index, t)
    requires t.effects == s.effects && t.log == s.log
    ensures Inv(cfg, t)
  {
    HeadFacts(cfg, s);
    PolledIds(s, index, t);
    assert PendingOk(t) && Counted(cfg, t);
    forall x ensures Local(t, x) {
      assert Good(cfg, s, x);
    }
  }

  lemma PolledKeeps(cfg: Config, s: Loop, index: nat)
    requires Inv(cfg, s) && s.verdict.Running? && Enabled(s, ToolPolled(index))
    ensures Inv(cfg, OnToolPolled(s, index))
  {
    if s.pending[index].route.Native? {
      PolledNative(cfg, s, index, OnToolPolled(s, index));
    } else {
      PolledOther(cfg, s, index, OnToolPolled(s, index));
    }
  }

  lemma PoppedIds(pending: seq<ToolFuture>, index: nat)
    requires index < |pending|
    requires forall i, j | 0 <= i < j < |pending| :: pending[i].callId != pending[j].callId
    ensures PendingIds(pending[..index] + pending[index + 1..]) == PendingIds(pending) - {pending[index].callId}
    ensures pending[index].callId in PendingIds(pending)
  {
    var left := pending[..index] + pending[index + 1..];
    forall x ensures x in PendingIds(left) <==> x in PendingIds(pending) && x != pending[index].callId {
      if i :| 0 <= i < |pending| && pending[i].callId == x && i != index {
        assert left[if i < index then i else i - 1].callId == x;
      }
    }
  }

  /** The loop just after the output of a finished call has been sent. */
  ghost function Answered(s: Loop, index: nat): Loop
    requires index < |s.pending|
  {
    s.(pending := s.pending[..index] + s.pending[index + 1..], log := Then(s.log, Calls(Output, {s.pending[index].callId})))
  }

  lemma AnsweredIds(cfg: Config, s: Loop, index: nat)
    requires Inv(cfg, s) && s.verdict.Running? && index < |s.pending|
    ensures forall id :: Accounted(Answered(s, index), id) && Fair(Answered(s, index).log, id)
  {
    var t := Answered(s, index);
    HeadFacts(cfg, s);
    PoppedIds(s.pending, index);
    forall x ensures Accounted(t, x) && Fair(t.log, x) {
      assert Good(cfg, s, x);
    }
  }

  lemma AllAnswered(s: Loop)
    requires forall id :: Accounted(s, id)
    requires s.pending == []
    ensures Settled(s.log)
  {
    assert PendingIds(s.pending) == {};
    forall x ensures Times(s.log, Executed, x) + Times(s.log, Refused, x) == Times(s.log, Output, x) {
      assert Accounted(s, x);
    }
  }

  lemma AnsweredPending(cfg: Config, s: Loop, index: nat)
    requires AtHead(cfg, s) && index < |s.pending|
    ensures PendingOk(Answered(s, index))
    ensures Counted(cfg, Answered(s, index))
  {
    var t := Answered(s, index);
    var left := t.pending;
    forall i, j | 0 <= i < j < |left| ensures left[i].callId != left[j].callId {
      assert left[i] == s.pending[if i < index then i else i + 1];
      assert left[j] == s.pending[if j < index then j else j + 1];
    }
    forall i | 0 <= i < |left| && left[i].route.Native? && !left[i].started
      ensures Times(t.log, Effect, left[i].callId) == 0
    {
      assert left[i] == s.pending[if i < index then i else i + 1];
    }
  }

  /** Asking for the next response once the batch is answered. */
  lemma RequestKeeps(cfg: Config, told: Loop, t: Loop)
    requires WithinBudget(cfg, told.log) && Settled(told.log) && told.verdict.Running?
    requires told.effects == AnyEffect(told.log)
    requires forall id :: Accounted(told, id) && Fair(told.log, id)
    requires PendingOk(told) && Counted(cfg, told.(waiting := true)) && told.pending == []
    requires told.session.Capturing? || told.session.Responding? || told.session.Ready?
    requires t == told.(waiting := false, active := None, responseArmed := true, log := Then(told.log, ResponseCreate))
    ensures Inv(cfg, t)
  {
    assert Global(cfg, t);
    forall x ensures Local(t, x) {
      assert Accounted(told, x) && Fair(told.log, x);
    }
  }

  /** The other ways to go on from an answered call. */
  lemma AnsweredKeeps(cfg: Config, s: Loop, index: nat, t: Loop)
    requires Inv(cfg, s) && s.verdict.Running? && index < |s.pending|
    requires t == Answered(s, index).(verdict := t.verdict) && t.verdict != Bailed(IterationLimit)
    requires t.verdict.Running? ==> t.pending != []
    ensures Inv(cfg, t)
  {
    HeadFacts(cfg, s);
    AnsweredIds(cfg, s, index);
    AnsweredPending(cfg, s, index);
    assert Global(cfg, t);
    forall x ensures Local(t, x) {
      assert Accounted(Answered(s, index), x) && Fair(t.log, x);
    }
  }

  lemma LastAnswerKeeps(cfg: Config, s: Loop, index: nat, t: Loop)
    requires Inv(cfg, s) && s.verdict.Running? && index < |s.pending|
    requires Answered(s, index).pending == []
    requires t == Answered(s, index).(waiting := false, active := None, responseArmed := true,
                                      log := Then(Answered(s, index).log, ResponseCreate))
    ensures Inv(cfg, t)
  {
    HeadFacts(cfg, s);
    AnsweredIds(cfg, s, index);
    AllAnswered(Answered(s, index));
    RequestKeeps(cfg, Answered(s, index), t);
  }

  lemma FinishedKeeps(cfg: Config, s: Loop, index: nat, sends: nat)
    requires Inv(cfg, s) && s.verdict.Running? && Enabled(s, ToolFinished(index, sends))
    ensures Inv(cfg, OnToolFinished(cfg, s, index, sends))
  {
    var t := OnToolFinished(cfg, s, index, sends);
    HeadFacts(cfg, s);
    if sends == 0 {
      Unrelated(cfg, s, t);
    } else if Answered(s, index).pending == [] && sends > 1 {
      LastAnswerKeeps(cfg, s, index, t);
    } else {
      AnsweredKeeps(cfg, s, index, t);
    }
  }

  lemma Receives(cfg: Config, s: Loop, t: Loop, callId: CallId, call: PendingFunctionCall)
    requires Inv(cfg, s) && s.verdict.Running? && !s.waiting && callId !in s.seen
    requires t == s.(active := t.active, seen := s.seen + {callId}, calls := s.calls[callId := call],
                     log := Then(s.log, Calls(Received, {callId})))
    ensures Inv(cfg, t)
  {
    HeadFacts(cfg, s);
    assert Global(cfg, t);
    forall x ensures Local(t, x) {
      assert Good(cfg, s, x);
    }
  }

  lemma ArgumentsKeep(cfg: Config, s: Loop, callId: CallId, responseId: Text, call: PendingFunctionCall)
    requires Inv(cfg, s) && s.verdict.Running?
    ensures Inv(cfg, OnArgumentsDone(s, callId, responseId, call))
  {
    var t := OnArgumentsDone(s, callId, responseId, call);
    if t.verdict.Running? {
      Receives(cfg, s, t, callId, call);
    } else {
      Unrelated(cfg, s, t);
    }
  }

  // ---- response.done -------------------------------------------------------

  /** What sending the outputs of a refused batch, as far as they get, adds to the history. */
  ghost predicate OnlyOutputs(before: History, after: History, ids: seq<CallId>, complete: bool) {
    && (forall kind, id :: kind != Output ==> Times(after, kind, id) == Times(before, kind, id))
    && (forall kind :: kind != Output ==> Total(after, kind) == Total(before, kind))
    && (forall id :: Times(after, Output, id) <= Times(before, Output, id) + One(id in ids))
    && (complete ==> forall id :: Times(after, Output, id) == Times(before, Output, id) + One(id in ids))
    && Total(after, Output) <= Total(before, Output) + |ids|
    && (complete ==> Total(after, Output) == Total(before, Output) + |ids|)
    && Creates(after) == Creates(before)
    && AnyEffect(after) == AnyEffect(before)
    && (Batched(before) ==> Batched(after))
  }

  lemma {:induction false} OutputsSent(log: History, order: seq<CallId>, sends: nat)
    requires forall i, j | 0 <= i < j < |order| :: order[i] != order[j]
    ensures OnlyOutputs(log, WithOutputs(log, order, sends), order, |order| <= sends)
    decreases |order|
  {
    if order != [] && sends > 0 {
      var next := Then(log, Calls(Output, {order[0]}));
      OutputsSent(next, order[1..], sends - 1);
      forall id ensures One(id in order) == One(id == order[0]) + One(id in order[1..]) {
        assert order == [order[0]] + order[1..];
      }
      assert forall id :: Times(next, Output, id) == Times(log, Output, id) + One(id == order[0]);
    }
  }

  lemma {:induction false} DistinctSize(order: seq<CallId>)
    requires forall i, j | 0 <= i < j < |order| :: order[i] != order[j]
    ensures |set x | x in order| == |order|
  {
    if order != [] {
      var last := |order| - 1;
      DistinctSize(order[..last]);
      assert (set x | x in order) == (set x | x in order[..last]) + {order[last]};
    }
  }

  lemma DrainOrderSize(order: seq<CallId>, calls: map<CallId, PendingFunctionCall>)
    requires DrainOrder(order, calls)
    ensures |order| == |calls|
  {
    DistinctSize(order);
    assert (set x | x in order) == calls.Keys;
  }

  /** The loop once a batch is refused, before its outputs are sent. */
  ghost function Noted(s: Loop): Loop {
    s.(refusals := s.refusals + 1, calls := map[], log := Then(s.log, Calls(Refused, s.calls.Keys)))
  }

  lemma RefusedHistory(cfg: Config, s: Loop, order: seq<CallId>, after: History, complete: bool)
    requires AtHead(cfg, s) && WithinBudget(cfg, s.log)
    requires s.refusals < TOOL_BUDGET_EXHAUSTED_GRACE && s.pending == []
    requires DrainOrder(order, s.calls) && |s.calls| <= cfg.maxCalls
    requires OnlyOutputs(Noted(s).log, after, order, complete)
    ensures WithinBudget(cfg, after)
    ensures Total(after, Refused) <= Quota(cfg, s.refusals + 1)
    ensures AnyEffect(after) == AnyEffect(s.log)
  {
    DrainOrderSize(order, s.calls);
    QuotaGrows(cfg, s.refusals + 1, TOOL_BUDGET_EXHAUSTED_GRACE);
  }

  lemma {:induction false} QuotaGrows(cfg: Config, m: nat, n: nat)
    requires m <= n
    ensures Quota(cfg, m) <= Quota(cfg, n)
  {
    if m < n {
      QuotaGrows(cfg, m, n - 1);
    }
  }

  lemma RefusedIds(cfg: Config, s: Loop, order: seq<CallId>, after: History, complete: bool)
    requires Inv(cfg, s) && s.verdict.Running? && s.pending == []
    requires DrainOrder(order, s.calls)
    requires OnlyOutputs(Noted(s).log, after, order, complete)
    ensures forall id :: Fair(after, id)
    ensures complete ==> forall id :: Accounted(s.(calls := map[], log := after), id)
  {
    assert PendingIds(s.pending) == {};
    forall x ensures Fair(after, x) && (complete ==> Accounted(s.(calls := map[], log := after), x)) {
      RefusedId(cfg, s, order, after, complete, x);
    }
  }

  lemma RefusedId(cfg: Config, s: Loop, order: seq<CallId>, after: History, complete: bool, id: CallId)
    requires Good(cfg, s, id) && s.verdict.Running? && s.pending == [] && PendingIds(s.pending) == {}
    requires DrainOrder(order, s.calls)
    requires OnlyOutputs(Noted(s).log, after, order, complete)
    ensures Fair(after, id)
    ensures complete ==> Accounted(s.(calls := map[], log := after), id)
  {
    assert Times(Noted(s).log, Refused, id) == Times(s.log, Refused, id) + One(id in s.calls);
  }

  lemma RefusalFails(cfg: Config, told: Loop)
    requires WithinBudget(cfg, told.log) && told.effects == AnyEffect(told.log)
    requires forall id :: Fair(told.log, id)
    ensures Inv(cfg, told.(verdict := Bailed(SendFailed)))
  {
    var failed := told.(verdict := Bailed(SendFailed));
    forall x ensures Local(failed, x) {
      assert Fair(told.log, x);
    }
  }

  /** Every refusal was sent, and the next response is requested. */
  lemma RefusalCompletes(cfg: Config, s: Loop, order: seq<CallId>, told: Loop)
    requires AtHead(cfg, s) && s.verdict.Running? && s.pending == [] && s.refusals < TOOL_BUDGET_EXHAUSTED_GRACE
    requires DrainOrder(order, s.calls) && OnlyOutputs(Noted(s).log, told.log, order, true)
    requires told == Noted(s).(log := told.log) && WithinBudget(cfg, told.log)
    requires told.effects == AnyEffect(told.log) && Total(told.log, Refused) <= Quota(cfg, told.refusals)
    requires forall id :: Fair(told.log, id)
    requires forall id :: Accounted(s.(calls := map[], log := told.log), id)
    ensures Inv(cfg, told.(active := None, responseArmed := true, log := Then(told.log, ResponseCreate)))
  {
    DrainOrderSize(order, s.calls);
    forall x ensures Accounted(told, x) {
      assert Accounted(s.(calls := map[], log := told.log), x);
    }
    AllAnswered(told);
    RequestKeeps(cfg, told, told.(active := None, responseArmed := true, log := Then(told.log, ResponseCreate)));
  }

  /** Refusing a batch, up to the point where the outputs stop or the next response is requested. */
  lemma RefusalKeeps(cfg: Config, s: Loop, order: seq<CallId>, told: Loop, complete: bool)
    requires Inv(cfg, s) && s.verdict.Running? && s.pending == [] && s.refusals < TOOL_BUDGET_EXHAUSTED_GRACE
    requires DrainOrder(order, s.calls) && |s.calls| <= cfg.maxCalls
    requires OnlyOutputs(Noted(s).log, told.log, order, complete)
    requires told == Noted(s).(log := told.log)
    ensures Inv(cfg, told.(verdict := Bailed(SendFailed)))
    ensures complete ==> Inv(cfg, told.(active := None, responseArmed := true, log := Then(told.log, ResponseCreate)))
  {
    HeadFacts(cfg, s);
    RefusedHistory(cfg, s, order, told.log, complete);
    RefusedIds(cfg, s, order, told.log, complete);
    RefusalFails(cfg, told);
    if complete {
      RefusalCompletes(cfg, s, order, told);
    }
  }

  lemma RefuseKeeps(cfg: Config, s: Loop, order: seq<CallId>, sends: nat)
    requires Inv(cfg, s) && s.verdict.Running? && s.pending == []
    requires DrainOrder(order, s.calls) && |s.calls| <= cfg.maxCalls
    ensures Inv(cfg, Refuse(s, order, sends))
  {
    if s.refusals + 1 > TOOL_BUDGET_EXHAUSTED_GRACE {
      Unrelated(cfg, s, Refuse(s, order, sends));
    } else {
      HeadFacts(cfg, s);
      OutputsSent(Noted(s).log, order, sends);
      var told := Noted(s).(log := WithOutputs(Noted(s).log, order, sends));
      RefusalKeeps(cfg, s, order, told, |order| <= sends);
    }
  }

  lemma FutureIds(cfg: Config, routed: set<Text>, calls: map<CallId, PendingFunctionCall>, order: seq<CallId>)
    requires DrainOrder(order, calls)
    ensures PendingIds(Futures(cfg, routed, calls, order)) == calls.Keys
  {
    var futures := Futures(cfg, routed, calls, order);
    forall x ensures x in PendingIds(futures) <==> x in calls.Keys {
      if x in calls {
        assert x in order;
        var i :| 0 <= i < |order| && order[i] == x;
        assert futures[i].callId == x;
      }
      if x in PendingIds(futures) {
        var i :| 0 <= i < |futures| && futures[i].callId == x;
        assert order[i] in order;
      }
    }
  }

  /** `t` is `s` with its call table handed to tool futures. */
  ghost predicate Dispatched(cfg: Config, s: Loop, order: seq<CallId>, routed: set<Text>, t: Loop) {
    && DrainOrder(order, s.calls)
    && s.pending == []
    && t == s.(iterations := s.iterations + 1, toolCalls := s.toolCalls + |s.calls|, waiting := true,
               responseArmed := false, calls := map[], pending := t.pending, effects := t.effects,
               log := Then(Then(s.log, Calls(Executed, s.calls.Keys)), Calls(Effect, EagerIds(cfg, routed, s.calls))))
    && t.pending == Futures(cfg, routed, s.calls, order)
    && t.effects == (s.effects || EagerIds(cfg, routed, s.calls) != {})
  }

  lemma BatchTimes(log: History, kind: Kind, ids: set<CallId>, id: CallId)
    ensures forall k :: Times(Then(log, Calls(kind, ids)), k, id) == Times(log, k, id) + One(k == kind && id in ids)
  {
  }

  lemma DispatchedId(cfg: Config, s: Loop, order: seq<CallId>, routed: set<Text>, t: Loop, id: CallId)
    requires Inv(cfg, s) && s.verdict.Running? && Dispatched(cfg, s, order, routed, t)
    requires PendingIds(t.pending) == s.calls.Keys && PendingIds(s.pending) == {}
    ensures Local(t, id)
  {
    assert Good(cfg, s, id);
    var log1 := Then(s.log, Calls(Executed, s.calls.Keys));
    BatchTimes(s.log, Executed, s.calls.Keys, id);
    BatchTimes(log1, Effect, EagerIds(cfg, routed, s.calls), id);
    assert id in EagerIds(cfg, routed, s.calls) ==> id in s.calls;
  }

  lemma DispatchedPending(cfg: Config, s: Loop, order: seq<CallId>, routed: set<Text>, t: Loop)
    requires Inv(cfg, s) && s.verdict.Running? && Dispatched(cfg, s, order, routed, t)
    ensures PendingOk(t)
  {
    var log1 := Then(s.log, Calls(Executed, s.calls.Keys));
    forall i | 0 <= i < |t.pending| && t.pending[i].route.Native?
      ensures Times(t.log, Effect, t.pending[i].callId) == 0
    {
      assert order[i] in order;
      assert Good(cfg, s, order[i]);
      assert Times(log1, Effect, order[i]) == 0;
    }
  }

  lemma DispatchedGlobal(cfg: Config, s: Loop, order: seq<CallId>, routed: set<Text>, t: Loop)
    requires AtHead(cfg, s) && WithinBudget(cfg, s.log) && s.effects == AnyEffect(s.log) && s.verdict.Running?
    requires Dispatched(cfg, s, order, routed, t) && s.calls != map[] && PendingOk(t)
    requires !ToolBudgetExhausted(cfg, s.iterations, s.toolCalls, |s.calls|)
    ensures Global(cfg, t)
  {
    DrainOrderSize(order, s.calls);
    DispatchedCounts(cfg, s, order, routed, t);
  }

  lemma DispatchedCounts(cfg: Config, s: Loop, order: seq<CallId>, routed: set<Text>, t: Loop)
    requires Counted(cfg, s) && Dispatched(cfg, s, order, routed, t)
    requires !ToolBudgetExhausted(cfg, s.iterations, s.toolCalls, |s.calls|) && !s.waiting
    ensures Counted(cfg, t)
  {
    DrainOrderSize(order, s.calls);
    assert |t.pending| == |s.calls|;
  }

  lemma DispatchKeeps(cfg: Config, s: Loop, order: seq<CallId>, routed: set<Text>)
    requires Inv(cfg, s) && s.verdict.Running? && s.pending == [] && s.calls != map[]
    requires DrainOrder(order, s.calls)
    requires !ToolBudgetExhausted(cfg, s.iterations, s.toolCalls, |s.calls|)
    ensures Inv(cfg, Dispatch(cfg, s, order, routed))
  {
    var t := Dispatch(cfg, s, order, routed);
    assert t.pending == Futures(cfg, routed, s.calls, order);
    FutureIds(cfg, routed, s.calls, order);
    assert PendingIds(s.pending) == {};
    HeadFacts(cfg, s);
    DispatchedPending(cfg, s, order, routed, t);
    DispatchedGlobal(cfg, s, order, routed, t);
    forall x ensures Local(t, x) {
      DispatchedId(cfg, s, order, routed, t, x);
    }
  }

  lemma MatchedKeeps(cfg: Config, s: Loop, ending: Loop, order: seq<CallId>, routed: set<Text>, sends: nat)
    requires Inv(cfg, s) && s.verdict.Running? && ending == s.(endAfter := ending.endAfter)
    requires s.calls != map[] && |s.calls| <= cfg.maxCalls && DrainOrder(order, s.calls)
    ensures Inv(cfg, Refuse(ending, order, sends))
    ensures !ToolBudgetExhausted(cfg, s.iterations, s.toolCalls, |s.calls|) ==>
              Inv(cfg, Dispatch(cfg, ending, order, routed))
  {
    HeadFacts(cfg, s);
    Unrelated(cfg, s, ending);
    RefuseKeeps(cfg, ending, order, sends);
    if !ToolBudgetExhausted(cfg, s.iterations, s.toolCalls, |s.calls|) {
      DispatchKeeps(cfg, ending, order, routed);
    }
  }

  lemma DoneWithoutCallsKeeps(cfg: Config, s: Loop)
    requires Inv(cfg, s) && s.verdict.Running?
    ensures Inv(cfg, OnDoneWithoutCalls(s))
  {
    HeadFacts(cfg, s);
    Unrelated(cfg, s, OnDoneWithoutCalls(s));
  }

  lemma MismatchKeeps(cfg: Config, s: Loop, ends: bool)
    requires Inv(cfg, s) && s.verdict.Running?
    ensures Inv(cfg, s.(endAfter := ends, verdict := Bailed(ProtocolViolation)))
  {
    PlainKeeps(cfg, s, s.(endAfter := ends, verdict := Bailed(ProtocolViolation)));
  }

  lemma ResponseDoneKeeps(cfg: Config, s: Loop, e: Event)
    requires Inv(cfg, s) && s.verdict.Running? && e.ResponseDone? && Enabled(s, e)
    ensures Inv(cfg, OnResponseDone(cfg, s, e.responseId, e.status, e.output, e.order, e.routed, e.sends))
  {
    var done := DoneCalls(e.output);
    DoneCallsAreCalls(e.output);
    if e.status.Canceled? {
      CanceledKeeps(cfg, s, e.responseId);
    } else if !e.status.Completed? || Conflicts(s.active, e.responseId) {
      BailKeeps(cfg, s, ProtocolViolation);
    } else if done == [] {
      DoneWithoutCallsKeeps(cfg, s);
    } else {
      CallsKeep(cfg, s, done, e.order, e.routed, e.sends);
    }
  }

  /** A completed response that lists function calls. */
  lemma CallsKeep(cfg: Config, s: Loop, done: seq<DoneCall>, order: seq<CallId>, routed: set<Text>, sends: nat)
    requires Inv(cfg, s) && s.verdict.Running? && done != [] && AllCalls(done) && DrainOrder(order, s.calls)
    ensures var ends := s.endAfter || EndsConversation(done);
      var ending := s.(endAfter := ends);
      && (forall e :: Inv(cfg, s.(endAfter := e, verdict := Bailed(ProtocolViolation))))
      && (Matches(cfg, done, s.calls) ==>
            && Inv(cfg, Refuse(ending, order, sends))
            && (!ToolBudgetExhausted(cfg, s.iterations, s.toolCalls, |s.calls|) ==>
                  Inv(cfg, Dispatch(cfg, ending, order, routed))))
  {
    forall e ensures Inv(cfg, s.(endAfter := e, verdict := Bailed(ProtocolViolation))) {
      MismatchKeeps(cfg, s, e);
    }
    if Matches(cfg, done, s.calls) {
      assert |s.calls| > 0;
      MatchedKeeps(cfg, s, s.(endAfter := s.endAfter || EndsConversation(done)), order, routed, sends);
    }
  }

  lemma StepKeeps(cfg: Config, s: Loop, e: Event)
    requires Inv(cfg, s) && s.verdict.Running? && Enabled(s, e)
    ensures Inv(cfg, Step(cfg, s, e))
  {
    match e
    case ToolPolled(index) => PolledKeeps(cfg, s, index);
    case ToolFinished(index, sends) => FinishedKeeps(cfg, s, index, sends);
    case ArgumentsDone(callId, responseId, call) => ArgumentsKeep(cfg, s, callId, responseId, call);
    case ResponseDone(_, _, _, _, _, _) => ResponseDoneKeeps(cfg, s, e);
    case _ => if Moves(e) { MoveKeeps(cfg, s, e); } else { OtherKeeps(cfg, s, e); }
  }

  // ---- Every run -----------------------------------------------------------

  lemma {:induction false} RunKeeps(cfg: Config, s: Loop, events: seq<Event>)
    requires Inv(cfg, s) && Feasible(cfg, s, events)
    ensures Inv(cfg, Run(cfg, s, events))
    decreases |events|
  {
    if events != [] {
      StepKeeps(cfg, s, events[0]);
      RunKeeps(cfg, Step(cfg, s, events[0]), events[1..]);
    }
  }

  lemma StartOk(cfg: Config)
    ensures Inv(cfg, Start())
  {
    forall id ensures Local(Start(), id) {
    }
  }
}
