/** When a voice session tries again, when it ends, and how. */
module SessionOutcomes {
  import opened Histories
  import opened SessionStates
  import opened ToolProtocol
  import opened ToolSafety
  import opened Reconnect

  ghost predicate AllFeasible(cfg: Config, inputs: seq<Attempt>) { forall a | a in inputs :: FeasibleAttempt(cfg, a) }

  ghost predicate Reaches(cfg: Config, inputs: seq<Attempt>, s: Session) {
    AllFeasible(cfg, inputs) && s == Passes(cfg, 0, Fresh(), inputs)
  }

  // ---- One attempt ---------------------------------------------------------

  /** The attempt got as far as its event loop. */
  predicate Loops(a: Attempt) { a.connects && a.activation.Activated? }

  /**
   An attempt ends well exactly if it connected, its teardown went well, and either its
   activation was cancelled or its loop returned and left no tool running; it is still
   live exactly while its loop is. Every other attempt has failed.
   */
  lemma AttemptEnds(cfg: Config, a: Attempt)
    requires FeasibleAttempt(cfg, a)
    ensures var r, s := RunOnce(cfg, a), Run(cfg, Start(), a.events);
            && (r.outcome == Finished(true) <==>
                  a.connects && a.teardownOk &&
                  (a.activation.ActivationCancelled? || (Loops(a) && s.verdict.Returned? && a.toolsIdle)))
            && (r.outcome == Live <==> Loops(a) && s.verdict.Running?)
            && (r.outcome == Live || r.outcome.Finished?)
  {
    OnceReported(cfg, a);
  }

  /** What the attempt leaves: its loop's history, and a closed machine exactly after a clean teardown. */
  lemma AttemptLeaves(cfg: Config, a: Attempt)
    requires FeasibleAttempt(cfg, a)
    ensures var r, s := RunOnce(cfg, a), Run(cfg, Start(), a.events);
            && r.log == (if Loops(a) then s.log else Empty)
            && r.effects == AnyEffect(r.log)
            && (r.state.Closed? <==> Loops(a) && s.verdict.Returned? && a.toolsIdle && a.teardownOk)
            && (r.state.Connecting? <==> !a.connects)
            && (a.connects && a.activation.ActivationFailed? ==> r.state.Ready?)
            && (Loops(a) && !s.verdict.Returned? ==> r.state == s.session)
            && (r.state.ShuttingDown? <==>
                  a.connects && (a.activation.ActivationCancelled? ||
                                 (Loops(a) && s.verdict.Returned? && !(a.toolsIdle && a.teardownOk))))
  {
    OnceReported(cfg, a);
    StartOk(cfg);
    RunKeeps(cfg, Start(), a.events);
    RunLeaves(cfg, Start(), a.events);
  }

  // ---- The attempt loop ----------------------------------------------------

  lemma WaitingPass(cfg: Config, n: nat, s: Session, a: Attempt)
    requires FeasibleAttempt(cfg, a) && SessionOk(n, s) && s.outcome.Waiting?
    ensures SessionOk(n + 1, Pass(cfg, n, s, a))
    ensures Pass(cfg, n, s, a).outcome.Waiting? ==> |Pass(cfg, n, s, a).logs| == |s.logs| + 1
  {
    PassKeeps(cfg, n, s, a);
    OnceReported(cfg, a);
  }

  lemma PassFirst(cfg: Config, n: nat, s: Session, a: Attempt, rest: seq<Attempt>)
    requires AllFeasible(cfg, rest) && FeasibleAttempt(cfg, a) && s.outcome.Waiting?
    ensures AllFeasible(cfg, [a] + rest)
    ensures Passes(cfg, n, s, [a] + rest) == Passes(cfg, n + 1, Pass(cfg, n, s, a), rest)
  {
    assert ([a] + rest)[1..] == rest;
  }

  /** While the session waits, each pass so far has started one attempt. */
  lemma {:induction false} OneMorePass(cfg: Config, n: nat, s: Session, inputs: seq<Attempt>, a: Attempt)
    requires AllFeasible(cfg, inputs) && FeasibleAttempt(cfg, a) && SessionOk(n, s)
    requires Passes(cfg, n, s, inputs).outcome.Waiting?
    ensures AllFeasible(cfg, inputs + [a])
    ensures Passes(cfg, n, s, inputs + [a]) == Pass(cfg, n + |inputs|, Passes(cfg, n, s, inputs), a)
    ensures SessionOk(n + |inputs|, Passes(cfg, n, s, inputs))
    ensures |Passes(cfg, n, s, inputs).logs| == |s.logs| + |inputs|
    decreases |inputs|
  {
    if inputs == [] {
      PassFirst(cfg, n, s, a, []);
      assert [] + [a] == [a] + [];
    } else {
      var first, rest := inputs[0], inputs[1..];
      assert inputs == [first] + rest && AllFeasible(cfg, rest);
      WaitingPass(cfg, n, s, first);
      PassFirst(cfg, n, s, first, rest);
      assert Pass(cfg, n, s, first).outcome.Waiting?;
      OneMorePass(cfg, n + 1, Pass(cfg, n, s, first), rest, a);
      PassFirst(cfg, n, s, first, rest + [a]);
      assert inputs + [a] == [first] + (rest + [a]);
    }
  }

  ghost predicate NoEffects(logs: seq<History>) { forall i | 0 <= i < |logs| :: !AnyEffect(logs[i]) }

  /** Shutdown had begun when the attempt ended. */
  predicate WasLeaving(r: Report) { r.state.ShuttingDown? || r.state.Closed? }

  /** After the attempt `a` failed, which is attempt number `n`, counted from zero. */
  ghost predicate HandledFailure(n: nat, a: Attempt, r: Report, t: Session) {
    var mayRetry := NoEffects(t.logs) && !WasLeaving(r);
    && (t.outcome.Waiting? <==> mayRetry && !a.cancelledInBackoff && n < 2)
    && (t.outcome == Finished(true) <==> mayRetry && a.cancelledInBackoff)
    && (t.outcome == Finished(false) <==> !mayRetry || (!a.cancelledInBackoff && n >= 2))
    && t.state == (if t.outcome.Waiting? then Connecting
                   else if t.outcome == Finished(true) then Closed
                   else if WasLeaving(r) then r.state
                   else SessionState.Failed)
  }

  lemma EffectsAreNew(n: nat, s: Session, r: Report)
    requires SessionOk(n, s) && s.outcome.Waiting? && r.effects == AnyEffect(r.log)
    ensures NoEffects(s.logs + [r.log]) <==> !r.effects
  {
    var logs := s.logs + [r.log];
    assert logs[|s.logs|] == r.log;
    assert forall i | 0 <= i < |s.logs| :: logs[i] == s.logs[i];
  }

  lemma FailedPass(cfg: Config, n: nat, s: Session, a: Attempt)
    requires SessionOk(n, s) && s.outcome.Waiting? && FeasibleAttempt(cfg, a) && !a.cancelledBefore
    requires RunOnce(cfg, a).outcome == Finished(false)
    ensures HandledFailure(n, a, RunOnce(cfg, a), Pass(cfg, n, s, a))
    ensures Pass(cfg, n, s, a).logs == s.logs + [RunOnce(cfg, a).log]
  {
    var r := RunOnce(cfg, a);
    OnceReported(cfg, a);
    EffectsAreNew(n, s, r);
  }

  /**
   A session in its attempt loop, whose next attempt fails: another attempt starts exactly if
   this was the first or the second, no attempt had a tool effect, the session was not
   leaving, and nobody cancelled it during the backoff.
   */
  lemma RetriesIff(cfg: Config, inputs: seq<Attempt>, s: Session, a: Attempt, t: Session)
    requires Reaches(cfg, inputs, s) && s.outcome.Waiting? && Reaches(cfg, inputs + [a], t)
    requires !a.cancelledBefore && FeasibleAttempt(cfg, a) && RunOnce(cfg, a).outcome == Finished(false)
    ensures HandledFailure(|inputs|, a, RunOnce(cfg, a), t)
    ensures |s.logs| == |inputs| && t.logs == s.logs + [RunOnce(cfg, a).log]
  {
    OneMorePass(cfg, 0, Fresh(), inputs, a);
    FailedPass(cfg, |inputs|, s, a);
  }

  /** Cancelled between attempts it closes; an attempt that did not fail ends the session as it ended. */
  lemma OtherwiseEnds(cfg: Config, inputs: seq<Attempt>, s: Session, a: Attempt, t: Session)
    requires Reaches(cfg, inputs, s) && s.outcome.Waiting? && Reaches(cfg, inputs + [a], t) && FeasibleAttempt(cfg, a)
    requires a.cancelledBefore || RunOnce(cfg, a).outcome != Finished(false)
    ensures a.cancelledBefore ==> t.outcome == Finished(true) && t.state.Closed? && t.logs == s.logs
    ensures !a.cancelledBefore ==>
              var r := RunOnce(cfg, a);
              t.outcome == r.outcome && t.state == r.state && t.logs == s.logs + [r.log] && !t.outcome.Waiting?
  {
    OneMorePass(cfg, 0, Fresh(), inputs, a);
    OnceReported(cfg, a);
  }

  /** The attempt fails before anything happened that forbids another. */
  ghost predicate FailsQuietly(cfg: Config, a: Attempt)
    requires FeasibleAttempt(cfg, a)
  {
    && !a.cancelledBefore && !a.cancelledInBackoff
    && var r := RunOnce(cfg, a);
    && r.outcome == Finished(false) && !AnyEffect(r.log) && !WasLeaving(r)
  }

  lemma {:induction false} QuietFailures(cfg: Config, n: nat, s: Session, inputs: seq<Attempt>)
    requires SessionOk(n, s) && s.outcome.Waiting? && |s.logs| == n
    requires forall a | a in inputs :: FeasibleAttempt(cfg, a) && FailsQuietly(cfg, a)
    ensures var t := Passes(cfg, n, s, inputs);
            if n + |inputs| < 3 then t.outcome.Waiting? && |t.logs| == n + |inputs|
            else t.outcome == Finished(false) && t.state == SessionState.Failed && |t.logs| == 3
    decreases |inputs|
  {
    if inputs != [] {
      var a := inputs[0];
      assert a in inputs && forall b | b in inputs[1..] :: b in inputs;
      FailedPass(cfg, n, s, a);
      PassKeeps(cfg, n, s, a);
      EffectsAreNew(n, s, RunOnce(cfg, a));
      OnceReported(cfg, a);
      PassFirst(cfg, n, s, a, inputs[1..]);
      assert inputs == [a] + inputs[1..];
      if n < 2 {
        QuietFailures(cfg, n + 1, Pass(cfg, n, s, a), inputs[1..]);
      }
    }
  }

  /** However many attempts would fail quietly, exactly three are made; fewer leave the session trying. */
  lemma ThreeAttempts(cfg: Config, inputs: seq<Attempt>)
    requires forall a | a in inputs :: FeasibleAttempt(cfg, a) && FailsQuietly(cfg, a)
    ensures var t := Passes(cfg, 0, Fresh(), inputs);
            if |inputs| < 3 then t.outcome.Waiting? && |t.logs| == |inputs|
            else t.outcome == Finished(false) && t.state == SessionState.Failed && |t.logs| == 3
  {
    QuietFailures(cfg, 0, Fresh(), inputs);
  }
}
