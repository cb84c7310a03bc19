/**
 `run` and `run_once` as the source writes them: one session machine moved step
 by step, one event loop per attempt, and the attempt loop around both.
 */
module SessionRuns {
  import opened Histories
  import opened SessionStates
  import opened ToolProtocol
  import opened EventLoops
  import opened Reconnect

  /** One connection attempt on a machine in `Connecting`. */
  method RunAttempt(cfg: Config, machine: SessionMachine, a: Attempt)
    returns (log: History, effects: bool, outcome: Outcome)
    requires FeasibleAttempt(cfg, a) && machine.state.Connecting?
    modifies machine
    ensures Report(machine.state, log, effects, outcome) == RunOnce(cfg, a)
  {
    log, effects, outcome := Empty, false, Finished(false);
    if !a.connects {
      return;
    }
    var ready := machine.Transition(Ready);
    if !ready || a.activation.ActivationFailed? {
      return;
    }
    if a.activation.ActivationCancelled? {
      var cancelling := machine.Transition(Cancelling);
      var leaving := machine.Transition(ShuttingDown);
      outcome := if cancelling && leaving then Finished(a.teardownOk) else Stuck;
      return;
    }
    var capturing := machine.Transition(Capturing);
    var events := new EventLoop(cfg, machine);
    events.RunEvents(a.events);
    log, effects := events.log, events.effects;
    if events.verdict.Running? {
      outcome := Live;
      return;
    }
    if !a.toolsIdle {
      return;
    }
    if machine.state.Cancelling? {
      var _ := machine.Transition(ShuttingDown);
    }
    var closed := true;
    if machine.state.ShuttingDown? && a.teardownOk {
      closed := machine.Transition(Closed);
    }
    outcome := if closed then Finished(events.verdict.Returned? && a.teardownOk) else Stuck;
  }

  /** `ShuttingDown?; Closed?; return Ok(())` after a cancellation. */
  method CloseCancelled(machine: SessionMachine) returns (outcome: Outcome)
    requires Accepts(machine.state, ShuttingDown)
    modifies machine
    ensures machine.state == Closed && outcome == Finished(true)
  {
    var leaving := machine.Transition(ShuttingDown);
    var closed := machine.Transition(Closed);
    outcome := if leaving && closed then Finished(true) else Stuck;
  }

  /** The failure arm of the attempt loop. */
  method HandleFailure(n: nat, machine: SessionMachine, a: Attempt, effects: bool, ghost s: Session)
    returns (outcome: Outcome)
    requires s.state == machine.state && s.effects == effects
    requires !effects && machine.state != ShuttingDown && machine.state != Closed ==>
               Accepts(machine.state, Reconnecting)
    modifies machine
    ensures s.(state := machine.state, outcome := outcome) == AfterFailure(n, s, a)
  {
    if effects || machine.state.ShuttingDown? || machine.state.Closed? {
      var _ := machine.Transition(SessionState.Failed);
      return Finished(false);
    }
    var _ := machine.Transition(Reconnecting);
    if a.cancelledInBackoff {
      outcome := CloseCancelled(machine);
      return;
    }
    var connecting := machine.Transition(Connecting);
    if n < RECONNECT_ATTEMPTS {
      return if connecting then Waiting else Stuck;
    }
    var _ := machine.Transition(SessionState.Failed);
    return if connecting then Finished(false) else Stuck;
  }

  /** One turn of the attempt loop. */
  method RunPass(cfg: Config, n: nat, machine: SessionMachine, a: Attempt, logs: seq<History>, effects: bool)
    returns (logsAfter: seq<History>, effectsAfter: bool, outcome: Outcome)
    requires FeasibleAttempt(cfg, a)
    requires SessionOk(n, Session(machine.state, logs, effects, Waiting))
    modifies machine
    ensures Session(machine.state, logsAfter, effectsAfter, outcome) ==
            Pass(cfg, n, Session(old(machine.state), logs, effects, Waiting), a)
  {
    logsAfter, effectsAfter := logs, effects;
    ghost var s := Session(machine.state, logs, effects, Waiting);
    PassKeeps(cfg, n, s, a);
    OnceReported(cfg, a);
    if a.cancelledBefore {
      outcome := CloseCancelled(machine);
      return;
    }
    var log, effect;
    log, effect, outcome := RunAttempt(cfg, machine, a);
    logsAfter := logs + [log];
    effectsAfter := effects || effect;
    if outcome == Finished(false) {
      outcome := HandleFailure(n, machine, a, effectsAfter, Session(machine.state, logsAfter, effectsAfter, outcome));
    }
  }

  /** The whole session; it stops when it is finished or the environment has no more to say. */
  method RunSession(cfg: Config, inputs: seq<Attempt>)
    returns (machine: SessionMachine, logs: seq<History>, effects: bool, outcome: Outcome)
    requires forall a | a in inputs :: FeasibleAttempt(cfg, a)
    ensures Session(machine.state, logs, effects, outcome) == Passes(cfg, 0, Fresh(), inputs)
  {
    machine := new SessionMachine();
    var _ := machine.Transition(Connecting);
    logs, effects, outcome := [], false, Waiting;
    var n := 0;
    assert inputs[0..] == inputs;
    while n < |inputs| && outcome.Waiting?
      invariant n <= |inputs| && fresh(machine)
      invariant SessionOk(n, Session(machine.state, logs, effects, outcome))
      invariant Passes(cfg, n, Session(machine.state, logs, effects, outcome), inputs[n..]) ==
                Passes(cfg, 0, Fresh(), inputs)
    {
      assert inputs[n..][1..] == inputs[n + 1..];
      PassKeeps(cfg, n, Session(machine.state, logs, effects, outcome), inputs[n]);
      logs, effects, outcome := RunPass(cfg, n, machine, inputs[n], logs, effects);
      n := n + 1;
    }
    assert inputs[n..] == [] || !outcome.Waiting?;
  }
}
