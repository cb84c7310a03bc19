/**
 A whole voice session (`run`): up to three connection attempts, each a full run
 of the event loop. An attempt that may have had a tool effect is the last one.
 */
module Reconnect {
  import opened Histories
  import opened SessionStates
  import opened ToolProtocol
  import opened ToolSafety
  import opened ToolTheorems
  import opened DrainSafety

  const RECONNECT_ATTEMPTS: nat := 2

  datatype Activation = Activated | ActivationCancelled | ActivationFailed

  /** What the environment does to one attempt. */
  datatype Attempt = Attempt(
    cancelledBefore: bool,
    connects: bool,
    activation: Activation,
    events: seq<Event>,
    teardownOk: bool,
    toolsIdle: bool,
    cancelledInBackoff: bool)

  datatype Outcome = Waiting | Live | Finished(ok: bool) | Stuck

  /** The session between attempts: `logs` has one history per attempt started. */
  datatype Session = Session(state: SessionState, logs: seq<History>, effects: bool, outcome: Outcome)

  datatype Report = Report(state: SessionState, log: History, effects: bool, outcome: Outcome)

  function Fresh(): Session { Session(Connecting, [], false, Waiting) }

  predicate FeasibleAttempt(cfg: Config, a: Attempt) { Feasible(cfg, Start(), a.events) }

  /** `run_once`, entered in `Connecting`. */
  function RunOnce(cfg: Config, a: Attempt): Report
    requires FeasibleAttempt(cfg, a)
  {
    if !a.connects || !Accepts(Connecting, Ready) then Report(Connecting, Empty, false, Finished(false))
    else if a.activation.ActivationFailed? then Report(Ready, Empty, false, Finished(false))
    else if a.activation.ActivationCancelled? then
      if Accepts(Ready, Cancelling) && Accepts(Cancelling, ShuttingDown)
      then Report(ShuttingDown, Empty, false, Finished(a.teardownOk))
      else Report(Ready, Empty, false, Stuck)
    else if !Accepts(Ready, Capturing) then Report(Ready, Empty, false, Stuck)
    else
      var s := Run(cfg, Start(), a.events);
      if s.verdict.Running? then Report(s.session, s.log, s.effects, Live)
      else if !a.toolsIdle then Report(s.session, s.log, s.effects, Finished(false))
      else
        var left := if s.session.Cancelling? then ShuttingDown else s.session;
        var closes := left.ShuttingDown? && a.teardownOk;
        if closes && !Accepts(left, Closed) then Report(left, s.log, s.effects, Stuck)
        else Report(if closes then Closed else left, s.log, s.effects,
                    Finished(s.verdict.Returned? && a.teardownOk))
  }

  /** `transition(to).ok()`: a refused move is ignored. */
  function Try(from: SessionState, to: SessionState): SessionState {
    if Accepts(from, to) then to else from
  }

  /** `ShuttingDown?; Closed?; return Ok(())`. */
  function Close(s: Session): Session {
    if Accepts(s.state, ShuttingDown) && Accepts(ShuttingDown, Closed) then s.(state := Closed, outcome := Finished(true))
    else s.(outcome := Stuck)
  }

  /** What `run` does once attempt number `n` has failed. */
  function AfterFailure(n: nat, s: Session, a: Attempt): Session {
    if s.effects || s.state.ShuttingDown? || s.state.Closed? then
      s.(state := Try(s.state, SessionState.Failed), outcome := Finished(false))
    else
      var retrying := s.(state := Try(s.state, Reconnecting));
      if a.cancelledInBackoff then Close(retrying)
      else if !Accepts(retrying.state, Connecting) then retrying.(outcome := Stuck)
      else if n < RECONNECT_ATTEMPTS then retrying.(state := Connecting, outcome := Waiting)
      else retrying.(state := Try(Connecting, SessionState.Failed), outcome := Finished(false))
  }

  /** The session right after an attempt that reported `r`. */
  function Ran(s: Session, r: Report): Session {
    Session(r.state, s.logs + [r.log], s.effects || r.effects, r.outcome)
  }

  /** One pass of the attempt loop. */
  function Pass(cfg: Config, n: nat, s: Session, a: Attempt): Session
    requires FeasibleAttempt(cfg, a)
  {
    if a.cancelledBefore then Close(s)
    else
      var report := RunOnce(cfg, a);
      var ran := Ran(s, report);
      if report.outcome == Finished(false) then AfterFailure(n, ran, a) else ran
  }

  /** Pass after pass, as long as the session waits for another attempt. */
  function Passes(cfg: Config, n: nat, s: Session, inputs: seq<Attempt>): Session
    requires forall a | a in inputs :: FeasibleAttempt(cfg, a)
    decreases |inputs|
  {
    if inputs == [] || !s.outcome.Waiting? then s
    else Passes(cfg, n + 1, Pass(cfg, n, s, inputs[0]), inputs[1..])
  }

  // ---- Where the event loop leaves the machine -----------------------------

  ghost predicate LoopState(session: SessionState) {
    session.Capturing? || session.Responding? || session.Ready?
  }

  /** The machine's state when the loop has returned, failed or is at its head. */
  ghost predicate LeavesWell(t: Loop) {
    if t.verdict.Returned? then t.session.ShuttingDown? else LoopState(t.session)
  }

  lemma DoneLeaves(cfg: Config, s: Loop, e: Event)
    requires s.verdict.Running? && LoopMoves(s.session) && LoopState(s.session) && e.ResponseDone? && Enabled(s, e)
    ensures LeavesWell(DoneStep(cfg, s, e))
  {
    if e.status.Canceled? {
      CanceledDrain(s, e.responseId);
    } else if e.status.Completed? && DoneCalls(e.output) == [] {
      EmptyLeaves(s);
    } else {
      BatchDrain(cfg, s, e);
    }
  }

  lemma EmptyLeaves(s: Loop)
    requires s.verdict.Running? && LoopMoves(s.session) && LoopState(s.session)
    ensures LeavesWell(OnDoneWithoutCalls(s))
  {
  }

  lemma StepLeaves(cfg: Config, s: Loop, e: Event)
    requires s.verdict.Running? && LoopMoves(s.session) && LoopState(s.session) && Enabled(s, e)
    ensures LeavesWell(Step(cfg, s, e))
  {
    match e
    case ResponseDone(_, _, _, _, _, _) => DoneLeaves(cfg, s, e);
    case ToolPolled(index) => PolledDrain(s, index);
    case ToolFinished(index, sends) => FinishedDrain(cfg, s, index, sends);
    case ArgumentsDone(callId, responseId, call) => ArgumentsDrain(s, callId, responseId, call);
    case _ =>
  }

  lemma {:induction false} RunLeaves(cfg: Config, s: Loop, events: seq<Event>)
    requires Inv(cfg, s) && Feasible(cfg, s, events) && LeavesWell(s)
    ensures LeavesWell(Run(cfg, s, events))
    decreases |events|
  {
    if events != [] {
      HeadFacts(cfg, s);
      StepLeaves(cfg, s, events[0]);
      StepKeeps(cfg, s, events[0]);
      RunLeaves(cfg, Step(cfg, s, events[0]), events[1..]);
    }
  }

  // ---- The whole session ---------------------------------------------------

  /** How often, over all attempts, a call with this id had an effect. */
  ghost function Effects(logs: seq<History>, id: CallId): nat {
    if logs == [] then 0 else Effects(logs[..|logs| - 1], id) + Times(logs[|logs| - 1], Effect, id)
  }

  ghost predicate SessionOk(n: nat, s: Session) {
    && |s.logs| <= n
    && (forall i | 0 <= i < |s.logs| - 1 :: !AnyEffect(s.logs[i]))
    && (s.effects <==> exists i | 0 <= i < |s.logs| :: AnyEffect(s.logs[i]))
    && (s.outcome.Waiting? ==> s.state.Connecting? && !s.effects && n <= RECONNECT_ATTEMPTS)
    && (!s.outcome.Waiting? ==> n <= RECONNECT_ATTEMPTS + 1)
    && !s.outcome.Stuck?
    && (s.outcome == Finished(true) ==> s.state.Closed? || s.state.ShuttingDown?)
    && forall i | 0 <= i < |s.logs| :: forall id :: Times(s.logs[i], Effect, id) <= One(AnyEffect(s.logs[i]))
  }

  lemma OnceReported(cfg: Config, a: Attempt)
    requires FeasibleAttempt(cfg, a)
    ensures var r := RunOnce(cfg, a);
      && r.effects == AnyEffect(r.log)
      && (forall id :: Times(r.log, Effect, id) <= One(AnyEffect(r.log)))
      && !r.outcome.Stuck? && !r.outcome.Waiting?
      && (r.outcome == Finished(true) ==> r.state.Closed? || r.state.ShuttingDown?)
      && (r.outcome == Finished(false) ==>
            LoopState(r.state) || r.state.Connecting? || r.state.ShuttingDown? || r.state.Closed?)
  {
    var s := Run(cfg, Start(), a.events);
    StartOk(cfg);
    RunKeeps(cfg, Start(), a.events);
    RunLeaves(cfg, Start(), a.events);
    forall id ensures Times(s.log, Effect, id) <= One(AnyEffect(s.log)) && s.effects == AnyEffect(s.log) {
      assert Good(cfg, s, id);
      NoEffectMeansNone(s.log, id);
    }
    assert s.effects == AnyEffect(s.log) by {
      assert Good(cfg, s, CallId(""));
    }
  }

  lemma LogsKeep(s: Session, r: Report)
    requires !s.effects && (forall i | 0 <= i < |s.logs| :: !AnyEffect(s.logs[i]))
    requires r.effects == AnyEffect(r.log)
    ensures var t := Ran(s, r);
      && t.effects == r.effects
      && (forall i | 0 <= i < |t.logs| - 1 :: !AnyEffect(t.logs[i]))
      && (t.effects <==> AnyEffect(t.logs[|t.logs| - 1]))
  {
    var t := Ran(s, r);
    forall i | 0 <= i < |t.logs| - 1 ensures !AnyEffect(t.logs[i]) {
      assert t.logs[i] == s.logs[i];
    }
  }

  lemma PassKeeps(cfg: Config, n: nat, s: Session, a: Attempt)
    requires FeasibleAttempt(cfg, a) && SessionOk(n, s) && s.outcome.Waiting?
    ensures SessionOk(n + 1, Pass(cfg, n, s, a))
  {
    OnceReported(cfg, a);
    var r := RunOnce(cfg, a);
    if !a.cancelledBefore {
      LogsKeep(s, r);
      assert Pass(cfg, n, s, a).logs == Ran(s, r).logs;
    }
  }

  lemma {:induction false} PassesKeep(cfg: Config, n: nat, s: Session, inputs: seq<Attempt>) returns (m: nat)
    requires (forall a | a in inputs :: FeasibleAttempt(cfg, a)) && SessionOk(n, s)
    ensures SessionOk(m, Passes(cfg, n, s, inputs))
    decreases |inputs|
  {
    m := n;
    if inputs != [] && s.outcome.Waiting? {
      PassKeeps(cfg, n, s, inputs[0]);
      m := PassesKeep(cfg, n + 1, Pass(cfg, n, s, inputs[0]), inputs[1..]);
    }
  }

  lemma {:induction false} OneEffect(logs: seq<History>, id: CallId)
    requires forall i | 0 <= i < |logs| - 1 :: !AnyEffect(logs[i])
    requires forall i | 0 <= i < |logs| :: Times(logs[i], Effect, id) <= One(AnyEffect(logs[i]))
    ensures Effects(logs, id) <= 1
    ensures (forall i | 0 <= i < |logs| :: !AnyEffect(logs[i])) ==> Effects(logs, id) == 0
  {
    if logs != [] {
      OneEffect(logs[..|logs| - 1], id);
    }
  }

  /**
   Over a whole session, reconnects included and for every server: at most three
   attempts start, only the last can have had a tool effect, and no call id has
   an effect twice. Every mandatory move of the session machine is accepted.
   */
  lemma SessionSafety(cfg: Config, inputs: seq<Attempt>, id: CallId)
    requires forall a | a in inputs :: FeasibleAttempt(cfg, a)
    ensures var s := Passes(cfg, 0, Fresh(), inputs);
      && |s.logs| <= RECONNECT_ATTEMPTS + 1
      && (forall i | 0 <= i < |s.logs| - 1 :: !AnyEffect(s.logs[i]))
      && Effects(s.logs, id) <= 1
      && !s.outcome.Stuck?
      && (s.outcome == Finished(true) ==> s.state.Closed? || s.state.ShuttingDown?)
  {
    var _ := PassesKeep(cfg, 0, Fresh(), inputs);
    OneEffect(Passes(cfg, 0, Fresh(), inputs).logs, id);
  }

  /** Once a tool may have had an effect, nothing the environment does starts another attempt. */
  lemma {:induction false} NoAttemptAfterEffect(cfg: Config, n: nat, s: Session, first: seq<Attempt>, more: seq<Attempt>)
    requires SessionOk(n, s)
    requires forall a | a in first + more :: FeasibleAttempt(cfg, a)
    ensures forall a | a in first :: FeasibleAttempt(cfg, a)
    ensures Passes(cfg, n, s, first).effects ==> Passes(cfg, n, s, first + more) == Passes(cfg, n, s, first)
    decreases |first|
  {
    forall a | a in first ensures a in first + more {
    }
    if first == [] {
      assert first + more == more;
    } else if s.outcome.Waiting? {
      var t := Pass(cfg, n, s, first[0]);
      PassKeeps(cfg, n, s, first[0]);
      assert (first + more)[1..] == first[1..] + more;
      forall a | a in first[1..] + more ensures FeasibleAttempt(cfg, a) {
        assert a in first + more;
      }
      NoAttemptAfterEffect(cfg, n + 1, t, first[1..], more);
    }
  }
}
