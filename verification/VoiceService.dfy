/**
 The voice service and the wake loop as the source writes them: fields taken, replaced
 and handed on branch by branch. Each method makes exactly one step of its protocol.
 */
module VoiceServices {
  import opened Options
  import opened Supervision
  import WakeLoops

  class QwenVoiceService {
    var sessions: seq<Session>
    var slot: Option<nat>

    ghost function View(): State
      reads this
    {
      State(sessions, slot)
    }

    constructor ()
      ensures View() == Supervision.Start()
    {
      sessions, slot := [], None;
    }

    method PrepareSession() returns (id: nat)
      modifies this`sessions
      ensures id == |old(sessions)| && View() == Step(old(View()), Prepare)
    {
      id := |sessions|;
      sessions := sessions + [Fresh];
    }

    /** `SessionHandle::request_cancel`: the setup gate is shut before the flag is raised. */
    method RequestCancelOf(id: nat)
      requires id < |sessions|
      modifies this`sessions
      ensures View() == Step(old(View()), Cancel(id))
    {
      sessions := sessions[id := sessions[id].(setup := Cancelled)];
      sessions := sessions[id := sessions[id].(cancelled := true)];
    }

    method ActivateSession(id: nat)
      requires id < |sessions|
      modifies this`sessions
      ensures View() == Step(old(View()), Activate(id))
    {
      sessions := sessions[id := sessions[id].(activated := true)];
    }

    method InterruptSession(id: nat)
      requires id < |sessions|
      modifies this`sessions
      ensures View() == Step(old(View()), Interrupt(id))
    {
      sessions := sessions[id := sessions[id].(interrupts := sessions[id].interrupts + 1)];
    }

    /** Takes the slot and spawns worker and supervisor, or refuses a second active session. */
    method EnterSession(id: nat) returns (ok: bool)
      requires Enabled(View(), Enter(id))
      modifies this
      ensures ok == Admits(old(View())) && View() == Step(old(View()), Enter(id))
    {
      if slot.Some? && !(slot.value < |sessions| && sessions[slot.value].terminal.Some?) {
        RequestCancelOf(id);
        sessions := sessions[id := sessions[id].(waiter := Returned(true))];
        return false;
      }
      slot := Some(id);
      sessions := sessions[id := sessions[id].(waiter := Waiting, worker := Working, supervisor := Watching)];
      ok := true;
    }

    method ClearActiveIfOwned(id: nat)
      modifies this`slot
      ensures slot == ClearedIfOwned(old(slot), id)
    {
      if slot.Some? && slot.value == id {
        slot := None;
      }
    }

    /** The supervisor's last segment: release the slot, then publish the outcome. */
    method ReleaseAndPublish(id: nat)
      requires Enabled(View(), Release(id))
      modifies this
      ensures View() == Step(old(View()), Release(id))
    {
      var outcome := sessions[id].supervisor.outcome;
      ClearActiveIfOwned(id);
      sessions := sessions[id := sessions[id].(supervisor := Done, terminal := Some(outcome))];
    }

    /** The supervisor's `select!`, its bounded wait after a cancel, and its wait past the deadline. */
    method PollSupervisor(id: nat, workerFirst: bool, deadline: bool)
      requires id < |sessions|
      requires sessions[id].supervisor.Watching? || sessions[id].supervisor.Cancelling? ||
               (sessions[id].supervisor.Overdue? && sessions[id].worker.Ended?)
      modifies this`sessions
      ensures old(sessions)[id].supervisor.Watching? ==> View() == Step(old(View()), Watch(id, workerFirst))
      ensures old(sessions)[id].supervisor.Cancelling? ==> View() == Step(old(View()), AwaitCancelled(id, deadline))
      ensures old(sessions)[id].supervisor.Overdue? ==> View() == Step(old(View()), AwaitOverdue(id))
    {
      var x := sessions[id];
      var next := x.supervisor;
      match x.supervisor {
        case Watching =>
          if x.worker.Ended? && (workerFirst || !x.cancelled) {
            next := Releasing(FromWorker(x.worker));
          } else if x.cancelled {
            next := Supervisor.Cancelling;
          }
        case Cancelling =>
          if x.worker.Ended? {
            next := Releasing(FromWorker(x.worker));
          } else if deadline {
            next := Overdue;
          }
        case Overdue => next := Releasing(ForcedTimeout);
      }
      sessions := sessions[id := x.(supervisor := next)];
    }

    method SetUpSession(id: nat) returns (ran: bool)
      requires Enabled(View(), SetUp(id))
      modifies this`sessions
      ensures ran == !(old(sessions)[id].setup.Cancelled? || old(sessions)[id].cancelled)
      ensures View() == Step(old(View()), SetUp(id))
    {
      if sessions[id].setup.Cancelled? || sessions[id].cancelled {
        sessions := sessions[id := sessions[id].(setup := Cancelled)];
        return false;
      }
      sessions := sessions[id := sessions[id].(setups := sessions[id].setups + 1)];
      sessions := sessions[id := sessions[id].(setup := ResourcesOwned)];
      ran := true;
    }

    method Handle(e: Event)
      requires Enabled(View(), e)
      modifies this
      ensures View() == Step(old(View()), e)
    {
      match e {
        case Prepare => var _ := PrepareSession();
        case Enter(id) => var _ := EnterSession(id);
        case SetUp(id) => var _ := SetUpSession(id);
        case Cancel(id) => RequestCancelOf(id);
        case Activate(id) => ActivateSession(id);
        case Interrupt(id) => InterruptSession(id);
        case WorkerEnds(id, ok) => sessions := sessions[id := sessions[id].(worker := Ended(ok))];
        case Watch(id, workerFirst) => PollSupervisor(id, workerFirst, false);
        case AwaitCancelled(id, deadline) => PollSupervisor(id, false, deadline);
        case AwaitOverdue(id) => PollSupervisor(id, false, false);
        case Release(id) => ReleaseAndPublish(id);
        case ToolsFail(id) => MoveWaiter(id, Returned(false));
        case Notice(id) => MoveWaiter(id, Returned(false));
        case CleanUp(id) => MoveWaiter(id, Finished);
        case DropWaiter(id) =>
          if sessions[id].waiter.Waiting? {
            RequestCancelOf(id);
          }
          MoveWaiter(id, Dropped);
      }
    }

    method MoveWaiter(id: nat, waiter: Waiter)
      requires id < |sessions|
      modifies this`sessions
      ensures View() == With(old(View()), id, old(sessions)[id].(waiter := waiter))
    {
      sessions := sessions[id := sessions[id].(waiter := waiter)];
    }

    /** Prepares, cancels, workers, supervisors and waiters in any order: exactly the protocol's run. */
    method RunEvents(events: seq<Event>)
      requires Feasible(View(), events)
      modifies this
      ensures View() == Run(old(View()), events)
    {
      var i := 0;
      assert events[0..] == events;
      while i < |events|
        invariant i <= |events|
        invariant Feasible(View(), events[i..]) && Run(View(), events[i..]) == Run(old(View()), events)
      {
        assert events[i..][1..] == events[i + 1..];
        Handle(events[i]);
        i := i + 1;
      }
    }
  }

  class WakeLoop {
    const native: bool
    const service: QwenVoiceService
    var pc: WakeLoops.Pc
    var active: Option<WakeLoops.Turn>
    var warm: Option<nat>

    ghost function View(): WakeLoops.Loop
      reads this, service
    {
      WakeLoops.Loop(native, service.View(), pc, active, warm)
    }

    constructor (native: bool, service: QwenVoiceService, prepared: bool)
      requires service.View() == Supervision.Start()
      modifies service
      ensures this.service == service && View() == WakeLoops.Start(native, prepared)
    {
      this.native, this.service, pc, active, warm := native, service, WakeLoops.AtSelect, None, None;
      new;
      if native && prepared {
        var id := service.PrepareSession();
        warm := Some(id);
      }
    }

    method IsFinished(id: nat) returns (finished: bool)
      ensures finished == WakeLoops.Finished(View(), id)
    {
      finished := id < |service.sessions| && service.sessions[id].waiter.Finished?;
    }

    /** `cancel_for_replacement` of a native turn, up to its await. */
    method CancelForReplacement(id: nat, joining: WakeLoops.Pc)
      requires id < |service.sessions|
      modifies this`pc, service
      ensures pc == joining && service.View() == Step(old(service.View()), Cancel(id))
    {
      service.RequestCancelOf(id);
      pc := joining;
    }

    method OnWake()
      requires WakeLoops.Enabled(View(), WakeLoops.Wake)
      modifies this, service
      ensures View() == WakeLoops.OnWake(old(View()))
    {
      if active == None {
        pc := WakeLoops.Preparing;
        return;
      }
      match active.value {
        case Legacy(_) =>
          active, pc := None, WakeLoops.Preparing;
        case Native(id) =>
          var finished := IsFinished(id);
          if !finished && service.sessions[id].activated {
            service.InterruptSession(id);
          } else {
            active := None;
            CancelForReplacement(id, WakeLoops.ReplacingActive(id));
          }
      }
    }

    /** A turn about to be greeted is no longer warm. */
    method GreetTurn(id: nat)
      requires id < |service.sessions|
      modifies this`pc, this`warm, service
      ensures View() == WakeLoops.Greet(old(View()), old(service.View()), id)
    {
      warm := None;
      service.ActivateSession(id);
      pc := WakeLoops.Greeting(id);
    }

    method SpawnAndGreetTurn(luck: WakeLoops.Luck)
      modifies this`pc, this`warm, service
      ensures View() == WakeLoops.SpawnAndGreet(old(View()), luck)
    {
      warm := None;
      if !luck.preparable {
        pc := WakeLoops.AtSelect;
        return;
      }
      var id := service.PrepareSession();
      GreetTurn(id);
    }

    method PromoteTurn(luck: WakeLoops.Luck)
      requires WakeLoops.HandlesExist(View())
      modifies this, service
      ensures View() == WakeLoops.Promote(old(View()), luck)
    {
      if !native {
        active, pc := Some(WakeLoops.Legacy(false)), WakeLoops.AtSelect;
        return;
      }
      if warm == None {
        SpawnAndGreetTurn(luck);
        return;
      }
      var id := warm.value;
      warm := None;
      var finished := IsFinished(id);
      if finished {
        pc := WakeLoops.JoiningStaleWarm(id);
      } else {
        GreetTurn(id);
      }
    }

    /** The rest of a tick after the active turn was looked at: rotate, retire, join, respawn. */
    method KeepWarm(luck: WakeLoops.Luck)
      requires WakeLoops.HandlesExist(View())
      modifies this, service
      ensures View() == WakeLoops.Rotate(old(View()), luck)
    {
      if luck.rotate && warm.Some? {
        var id := warm.value;
        warm := None;
        CancelForReplacement(id, WakeLoops.Rotating(id));
        return;
      }
      RetireWarm(luck);
    }

    method RetireWarm(luck: WakeLoops.Luck)
      requires WakeLoops.HandlesExist(View())
      modifies this, service
      ensures View() == WakeLoops.Retire(old(View()), luck)
    {
      if luck.tooOld && warm.Some? {
        var id := warm.value;
        warm := None;
        CancelForReplacement(id, WakeLoops.Retiring(id));
        return;
      }
      JoinWarmTurn(luck);
    }

    method JoinWarmTurn(luck: WakeLoops.Luck)
      requires WakeLoops.HandlesExist(View())
      modifies this, service
      ensures View() == WakeLoops.JoinWarm(old(View()), luck)
    {
      if warm.Some? {
        var finished := IsFinished(warm.value);
        if finished {
          pc := WakeLoops.JoiningWarm(warm.value);
          warm := None;
          return;
        }
      }
      RespawnWarm(luck);
    }

    method RespawnWarm(luck: WakeLoops.Luck)
      modifies this, service
      ensures View() == WakeLoops.Respawn(old(View()), luck)
    {
      pc := WakeLoops.AtSelect;
      if warm.None? && active.None? && native && luck.respawnDue && luck.preparable {
        var id := service.PrepareSession();
        warm := Some(id);
      }
    }

    method OnTick(luck: WakeLoops.Luck)
      requires WakeLoops.Enabled(View(), WakeLoops.Tick(luck))
      modifies this, service
      ensures View() == WakeLoops.OnTick(old(View()), luck)
    {
      if active.Some? {
        var finished := true;
        if active.value.Native? {
          finished := IsFinished(active.value.id);
        } else {
          finished := active.value.finished;
        }
        if finished {
          pc := WakeLoops.JoiningFinished(active.value);
          active := None;
          return;
        }
      }
      KeepWarm(luck);
    }

    method Resume(luck: WakeLoops.Luck)
      requires WakeLoops.Enabled(View(), WakeLoops.Resume(luck))
      modifies this, service
      ensures View() == WakeLoops.OnResume(old(View()), luck)
    {
      match pc {
        case ReplacingActive(_) => pc := WakeLoops.Preparing;
        case Preparing => PromoteTurn(luck);
        case JoiningStaleWarm(_) => SpawnAndGreetTurn(luck);
        case Greeting(id) => active, pc := Some(WakeLoops.Native(id)), WakeLoops.AtSelect;
        case JoiningFinished(turn) =>
          if turn.Native? && native {
            warm := None;
            if luck.preparable {
              var id := service.PrepareSession();
              warm := Some(id);
            }
          }
          pc := WakeLoops.Blinking;
        case Blinking => KeepWarm(luck);
        case Rotating(_) => RetireWarm(luck);
        case Retiring(_) => JoinWarmTurn(luck);
        case JoiningWarm(_) => RespawnWarm(luck);
      }
    }

    method Handle(e: WakeLoops.Event)
      requires WakeLoops.Enabled(View(), e)
      modifies this, service
      ensures View() == WakeLoops.Step(old(View()), e)
    {
      match e {
        case Wake => OnWake();
        case Tick(luck) => OnTick(luck);
        case Resume(luck) => Resume(luck);
        case LegacyEnds => active := Some(WakeLoops.Legacy(true));
        case Moves(task) => service.Handle(task);
      }
    }

    /** The loop among the tasks it spawned, in any order: exactly the protocol's run. */
    method RunEvents(events: seq<WakeLoops.Event>)
      requires WakeLoops.Feasible(View(), events)
      modifies this, service
      ensures View() == WakeLoops.Run(old(View()), events)
    {
      var i := 0;
      assert events[0..] == events;
      while i < |events|
        invariant i <= |events|
        invariant WakeLoops.Feasible(View(), events[i..])
        invariant WakeLoops.Run(View(), events[i..]) == WakeLoops.Run(old(View()), events)
      {
        assert events[i..][1..] == events[i + 1..];
        Handle(events[i]);
        i := i + 1;
      }
    }
  }
}
