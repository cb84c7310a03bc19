/**
 The MCP client's shared state as the source keeps it: flags, a call counter and a
 close-once service state, changed by one method per poll segment. Each
 postcondition says the segment is exactly the protocol's step, so every theorem
 about `Step` holds of these updates.
 */
module McpClients {
  import opened Histories
  import opened McpCalls

  class NativeMcpState {
    var poisoned: bool
    var cancelAll: bool
    var activeCalls: int
    var routingFailed: bool
    var serviceState: ServiceState
    var owned: bool
    var tasks: seq<Task>
    ghost var log: History

    ghost function View(): State
      reads this
    {
      State(poisoned, cancelAll, activeCalls, routingFailed, serviceState, owned, tasks, log)
    }

    constructor ()
      ensures View() == McpCalls.Start()
    {
      poisoned, cancelAll, activeCalls, routingFailed := false, false, 0, false;
      serviceState, owned, tasks, log := Open, true, [], Empty;
    }

    method MoveTo(i: nat, phase: Phase)
      requires i < |tasks|
      modifies this`tasks
      ensures tasks == At(old(View()), i, phase)
    {
      tasks := tasks[i := tasks[i].(phase := phase)];
    }

    /** The task returns; `ActiveMcpCall` gives its place back when it is dropped. */
    method EndTask(i: nat, result: Result)
      requires i < |tasks|
      modifies this`tasks, this`activeCalls
      ensures View() == Finish(old(View()), i, result, log)
    {
      if tasks[i].worker {
        activeCalls := activeCalls - 1;
      }
      MoveTo(i, Finished(result));
    }

    method PoisonAndCancel()
      modifies this`poisoned, this`cancelAll, this`log
      ensures View() == Poisoned(old(View()), old(log))
    {
      poisoned := true;
      cancelAll := true;
      log := Then(log, Poison);
    }

    /** `fail_close_native_mcp` from the compare-exchange to its next await. */
    method ContendForClose(i: nat, why: Result)
      requires i < |tasks|
      modifies this
      ensures View() == Contend(old(View()), i, why)
    {
      match serviceState {
        case Open =>
          serviceState := Closing;
          MoveTo(i, Locking(why));
        case Closing => MoveTo(i, AwaitingClose(why));
        case Closed => EndTask(i, why);
        case CloseFailed => EndTask(i, CleanupFailed);
      }
    }

    /** A request ends as timed out or cancelled. */
    method InterruptRequest(i: nat, why: Result)
      requires i < |tasks|
      modifies this
      ensures View() == Interrupted(old(View()), i, why)
    {
      if why.Timeout? {
        log := Then(log, TimedOut(i));
      }
      var sent := tasks[i].phase.Awaiting?;
      PoisonAndCancel();
      if sent {
        MoveTo(i, Notifying(why));
      } else {
        ContendForClose(i, why);
      }
    }

    /** One poll of either `select!` of `run_native_mcp_call`. */
    method PollSelect(i: nat, io: Io)
      requires i < |tasks| && (tasks[i].phase.Establishing? || tasks[i].phase.Awaiting?)
      modifies this
      ensures View() == PollRequest(old(View()), i, io)
    {
      if tasks[i].caller.Gone? || cancelAll {
        InterruptRequest(i, Cancelled);
        return;
      }
      match io {
        case Elapsed => InterruptRequest(i, Timeout);
        case Quiet =>
        case Done(ok, result) =>
          if !ok {
            EndTask(i, ServiceError);
          } else if tasks[i].phase.Establishing? {
            log := Then(log, Sent(i));
            MoveTo(i, Awaiting);
          } else if result.Success? {
            log := Then(log, Succeeded(i));
            EndTask(i, Success);
          } else {
            EndTask(i, if result.ToolError? then ToolError else UnexpectedResponse);
          }
      }
    }

    /** `state.service.lock().await.take()`: the close begins only if the service is still there. */
    method TakeService(i: nat, why: Result)
      requires i < |tasks| && tasks[i].phase == Locking(why)
      modifies this
      ensures View() == PollTask(old(View()), i, Quiet)
    {
      if owned {
        owned := false;
        log := Then(log, Took);
        MoveTo(i, ClosingService(why));
      } else {
        serviceState := CloseFailed;
        EndTask(i, CleanupFailed);
      }
    }

    /** The end of `close_with_timeout`, stored for everyone who waits. */
    method StoreClose(i: nat, why: Result, io: Io)
      requires i < |tasks| && tasks[i].phase == ClosingService(why) && !io.Quiet?
      modifies this
      ensures View() == PollTask(old(View()), i, io)
    {
      match io {
        case Elapsed =>
          serviceState := CloseFailed;
          EndTask(i, CleanupTimeout);
        case Done(ok, _) =>
          if ok {
            serviceState := Closed;
            log := Then(log, ClosedService);
            EndTask(i, why);
          } else {
            serviceState := CloseFailed;
            EndTask(i, CleanupFailed);
          }
      }
    }

    method PollWaiter(i: nat, why: Result, io: Io)
      requires i < |tasks| && tasks[i].phase == AwaitingClose(why)
      modifies this
      ensures View() == PollTask(old(View()), i, io)
    {
      match serviceState {
        case Closed => EndTask(i, why);
        case CloseFailed => EndTask(i, CleanupFailed);
        case _ =>
          if io.Elapsed? {
            EndTask(i, CleanupTimeout);
          }
      }
    }

    method Poll(i: nat, io: Io)
      requires i < |tasks|
      modifies this
      ensures View() == PollTask(old(View()), i, io)
    {
      match tasks[i].phase {
        case Starting =>
          if cancelAll {
            EndTask(i, Cancelled);
          } else {
            MoveTo(i, Establishing);
          }
        case Establishing => PollSelect(i, io);
        case Awaiting => PollSelect(i, io);
        case Notifying(why) =>
          if !io.Quiet? {
            ContendForClose(i, why);
          }
        case Locking(why) => TakeService(i, why);
        case ClosingService(why) =>
          if !io.Quiet? {
            StoreClose(i, why, io);
          }
        case AwaitingClose(why) => PollWaiter(i, why, io);
        case Finished(_) =>
      }
    }

    /** `NativeMcpClient::call` up to its first await. */
    method Call(argumentsOk: bool)
      modifies this
      ensures View() == OnCall(old(View()), argumentsOk)
    {
      if routingFailed {
        tasks := tasks + [Task(false, AwaitingClose(FailClosed), Waiting)];
        PoisonAndCancel();
        ContendForClose(|tasks| - 1, FailClosed);
      } else if poisoned {
        tasks := tasks + [Task(false, Finished(FailClosed), Returned)];
      } else if !argumentsOk {
        tasks := tasks + [Task(false, Finished(ToolError), Returned)];
      } else {
        activeCalls := activeCalls + 1;
        tasks := tasks + [Task(true, Starting, Waiting)];
      }
    }

    /** The caller's future is dropped: `NativeMcpCall` poisons the client on the way out. */
    method Drop(i: nat)
      requires i < |tasks| && tasks[i].caller.Waiting?
      modifies this
      ensures View() == OnDrop(old(View()), i)
    {
      if tasks[i].worker {
        log := Then(log, DroppedInFlight(i));
        PoisonAndCancel();
        tasks := tasks[i := tasks[i].(caller := Gone)];
      } else {
        tasks := tasks[i := Task(false, Finished(Cancelled), Gone)];
      }
    }

    method Handle(e: Event)
      requires Enabled(View(), e)
      modifies this
      ensures View() == Step(old(View()), e)
    {
      match e {
        case RoutingFails => routingFailed := true;
        case Call(argumentsOk) => Call(argumentsOk);
        case Poll(i, io) => Poll(i, io);
        case DropCaller(i) => Drop(i);
        case ReturnToCaller(i) => tasks := tasks[i := tasks[i].(caller := Returned)];
      }
    }

    /** Callers, workers and drops in any order: exactly the protocol's run. */
    method RunEvents(events: seq<Event>)
      requires Feasible(View(), events)
      modifies this
      ensures View() == Run(old(View()), events)
    {
      var i := 0;
      assert events[0..] == events;
      while i < |events|
        invariant i <= |events|
        invariant Feasible(View(), events[i..]) && Run(View(), events[i..]) == Run(old(View()), events)
      {
        assert events[i..][1..] == events[i + 1..];
        Handle(events[i]);
        i := i + 1;
      }
    }
  }
}
