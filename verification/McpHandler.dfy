/**
 The notification handler and `replace_tools` as the source writes them: a state cell
 changed by compare-exchange and store, and two loops over the tool server.
 */
module McpHandlers {
  import opened Options
  import opened McpRefresh
  import opened McpRouting

  /** How one awaited call to the tool server ends; `DeadlineDrops` drops the replacement there. */
  datatype Answer = Confirmed | Refused(tookEffect: bool) | DeadlineDrops

  datatype Ending = Ending(reg: Registry, completed: bool)

  /** A replacement driven by the tool server's answers; it stays suspended, and is dropped, when they run out. */
  function Replay(p: Progress, answers: seq<Answer>): Ending
    requires p.job.Some? ==> p.job.value.todo != []
    decreases |answers|
  {
    if p.job.None? then Ending(p.reg, true)
    else if answers == [] then Ending(p.reg, false)
    else
      match answers[0]
      case Confirmed => Replay(Proceed(p.reg, p.job.value), answers[1..])
      case Refused(tookEffect) => Ending(if tookEffect then Served(p.reg, p.job.value) else p.reg, false)
      case DeadlineDrops => Ending(p.reg, false)
  }

  ghost predicate For(p: Progress, names: seq<Name>) {
    if p.job.Some? then p.job.value.names == names else p.reg.managed == names
  }

  lemma {:induction false} ReplayCovers(p: Progress, names: seq<Name>, answers: seq<Answer>)
    requires ProgressOk(p) && For(p, names)
    ensures var end := Replay(p, answers);
            Covered(end.reg) && (end.completed ==> Clean(end.reg) && end.reg.managed == names)
    decreases |answers|
  {
    if p.job.Some? && answers != [] {
      if answers[0].Confirmed? {
        ReplayCovers(Proceed(p.reg, p.job.value), names, answers[1..]);
      }
    }
  }

  /**
   However the tool server answers and wherever the deadline strikes, a replacement leaves
   every proxy covered exactly if the leftovers it found are among its names; and then a
   completed one leaves exactly the new tools everywhere.
   */
  lemma ReplacementCoversIff(g: Registry, names: seq<Name>)
    requires Covered(g)
    ensures LeftoversFit(g, names) <==> forall answers :: Covered(Replay(Begin(g, names), answers).reg)
    ensures LeftoversFit(g, names) ==>
              forall answers | Replay(Begin(g, names), answers).completed ::
                Replay(Begin(g, names), answers).reg == Registry(Names(names), Names(names), names)
  {
    if LeftoversFit(g, names) {
      forall answers ensures var end := Replay(Begin(g, names), answers);
                             Covered(end.reg) && (end.completed ==> Clean(end.reg) && end.reg.managed == names)
      {
        ReplayCovers(Begin(g, names), names, answers);
      }
    } else {
      var answers := ConfirmRemovals(g.(managed := []), g.managed, names);
      PublishingCovers(g, names);
    }
  }

  /** The tool server confirms the removals and the deadline strikes right after. */
  lemma {:induction false} ConfirmRemovals(g: Registry, todo: seq<Name>, names: seq<Name>)
    returns (answers: seq<Answer>)
    ensures Replay(Remove(g, todo, names), answers).reg == AfterRemovals(Remove(g, todo, names)).reg
    decreases |todo|
  {
    answers := [];
    if todo != [] {
      answers := ConfirmRemovals(Served(g, Removing(todo, names)), todo[1..], names);
      assert ([Confirmed] + answers)[1..] == answers;
      answers := [Confirmed] + answers;
    }
  }

  /** The tool-server calls a replacement still needs. */
  function Calls(p: Progress): nat { if p.job.Some? then Work(p.job.value) else 0 }

  ghost predicate Confirms(answers: seq<Answer>, n: nat) {
    n <= |answers| && forall i | 0 <= i < n :: answers[i].Confirmed?
  }

  /** A replacement completes exactly if every call it needs is confirmed. */
  lemma {:induction false} CompletesIff(p: Progress, answers: seq<Answer>)
    requires p.job.Some? ==> p.job.value.todo != []
    ensures Replay(p, answers).completed <==> Confirms(answers, Calls(p))
    decreases |answers|
  {
    if p.job.Some? && answers != [] && answers[0].Confirmed? {
      var next := Proceed(p.reg, p.job.value);
      CompletesIff(next, answers[1..]);
      assert Calls(next) == Calls(p) - 1;
      assert forall i | 1 <= i < |answers| :: answers[i] == answers[1..][i - 1];
      if Confirms(answers[1..], Calls(next)) {
        assert Confirms(answers, Calls(p));
      }
    }
  }

  /** A replacement of `g` needs one call for each tool to remove and one for each to add. */
  lemma ReplacementCompletesIff(g: Registry, names: seq<Name>, answers: seq<Answer>)
    ensures Replay(Begin(g, names), answers).completed <==> Confirms(answers, |g.managed| + |names|)
  {
    CompletesIff(Begin(g, names), answers);
  }

  /** A refused call leaves what the deadline would, apart from the proxy it touched if it took effect. */
  lemma {:induction false} RefusalLeaves(p: Progress, before: seq<Answer>)
    requires p.job.Some? && p.job.value.todo != [] && Confirms(before, |before|) && |before| < Calls(p)
    ensures Replay(p, before + [Refused(false)]) == Replay(p, before + [DeadlineDrops])
    ensures var end, next := Replay(p, before + [Refused(true)]), Replay(p, before + [Confirmed, DeadlineDrops]);
            end.reg.registered == next.reg.registered && !end.completed
    decreases |before|
  {
    var next := Proceed(p.reg, p.job.value);
    assert Calls(next) == Calls(p) - 1;
    if before == [] {
      assert [] + [Refused(false)] == [Refused(false)] && [] + [DeadlineDrops] == [DeadlineDrops];
      assert [] + [Refused(true)] == [Refused(true)];
      assert [] + [Confirmed, DeadlineDrops] == [Confirmed] + [DeadlineDrops];
      assert ([Confirmed] + [DeadlineDrops])[1..] == [DeadlineDrops];
    } else {
      var rest := before[1..];
      assert (before + [Refused(false)])[1..] == rest + [Refused(false)];
      assert (before + [DeadlineDrops])[1..] == rest + [DeadlineDrops];
      assert (before + [Refused(true)])[1..] == rest + [Refused(true)];
      assert (before + [Confirmed, DeadlineDrops])[1..] == rest + [Confirmed, DeadlineDrops];
      RefusalLeaves(next, rest);
    }
  }

  class NativeMcpHandler {
    var table: set<Name>
    var registered: set<Name>
    var managed: seq<Name>
    var refresh: RefreshState
    var failed: bool
    var handlers: seq<Pass>
    var startup: Pass
    ghost var ledger: Ledger

    ghost function Reg(): Registry
      reads this
    {
      Registry(table, registered, managed)
    }

    ghost function View(): State
      reads this
    {
      State(Reg(), refresh, failed, handlers, startup, ledger)
    }

    constructor ()
      ensures View() == McpRefresh.Start()
    {
      table, registered, managed := {}, {}, [];
      refresh, failed, handlers, startup := Idle, false, [], Listing;
      ledger := McpRefresh.Start().ledger;
    }

    method RemoveProxy(name: Name)
      modifies this`registered
      ensures registered == old(registered) - {name}
    {
      registered := registered - {name};
    }

    method AddProxy(name: Name)
      modifies this`registered
      ensures registered == old(registered) + {name}
    {
      registered := registered + {name};
    }

    /** `replace_tools`: drain and unregister, publish the routes, register, keep the list. */
    method ReplaceTools(names: seq<Name>, answers: seq<Answer>) returns (ok: bool)
      modifies this`table, this`registered, this`managed
      ensures Ending(Reg(), ok) == Replay(Begin(old(Reg()), names), answers)
    {
      var todo, left := managed, answers;
      managed := [];
      while todo != []
        invariant managed == []
        invariant Replay(Remove(Reg(), todo, names), left) == Replay(Begin(old(Reg()), names), answers)
        decreases |todo|
      {
        if left == [] || left[0].DeadlineDrops? {
          return false;
        }
        if left[0].Refused? {
          if left[0].tookEffect {
            RemoveProxy(todo[0]);
          }
          return false;
        }
        RemoveProxy(todo[0]);
        todo, left := todo[1..], left[1..];
      }
      table := Names(names);
      todo := names;
      while todo != []
        invariant managed == []
        invariant Replay(Add(Reg(), todo, names), left) == Replay(Begin(old(Reg()), names), answers)
        decreases |todo|
      {
        if left == [] || left[0].DeadlineDrops? {
          return false;
        }
        if left[0].Refused? {
          if left[0].tookEffect {
            AddProxy(todo[0]);
          }
          return false;
        }
        AddProxy(todo[0]);
        todo, left := todo[1..], left[1..];
      }
      managed := names;
      ok := true;
    }

    /** Sets the state to `to` if it is `expected`; returns what it found. */
    method CompareExchange(expected: RefreshState, to: RefreshState) returns (found: RefreshState)
      modifies this`refresh
      ensures found == old(refresh)
      ensures refresh == if found == expected then to else found
    {
      found := refresh;
      if found == expected {
        refresh := to;
      }
    }

    /** `on_tool_list_changed` up to its first await. */
    method OnToolListChanged()
      modifies this`refresh, this`handlers, this`ledger
      ensures View() == OnNotify(old(View()))
    {
      if failed {
        handlers := handlers + [Over];
        return;
      }
      var found := CompareExchange(Idle, Running);
      ledger := Accepted(ledger);
      if found.Idle? {
        ledger := NewPass(ledger, |handlers|, false);
        handlers := handlers + [Listing];
        return;
      }
      if found.Running? {
        var _ := CompareExchange(Running, Pending);
      }
      handlers := handlers + [Over];
    }

    /** After a completed replacement: leave, the guard storing idle once more, or go around. */
    method FinishPass(id: nat)
      requires id < |handlers|
      modifies this`refresh, this`handlers, this`ledger
      ensures View() == Advance(old(View()), Handler(id), Progress(old(Reg()), None))
    {
      var found := CompareExchange(Running, Idle);
      if found.Running? {
        refresh := Idle;
        handlers := handlers[id := Over];
        ledger := ledger.(runner := None);
      } else {
        refresh := Running;
        handlers := handlers[id := Listing];
        ledger := NewPass(ledger, id, failed);
      }
    }

    /** A pass fails: close routing; the guard stores idle as the handler returns. */
    method FailPass(who: Who)
      requires Known(View(), who)
      modifies this`refresh, this`failed, this`handlers, this`startup, this`ledger
      ensures View() == Fail(old(View()), who, old(Reg()))
    {
      failed := true;
      ledger := ledger.(torn := ledger.torn || PassOf(View(), who).Replacing?);
      match who {
        case Handler(id) =>
          ledger := ledger.(refreshFailed := true, runner := None);
          handlers := handlers[id := Over];
          refresh := Idle;
        case Starter => startup := Over;
      }
    }

    method MoveTask(who: Who, pass: Pass)
      requires Known(View(), who)
      modifies this`handlers, this`startup
      ensures View() == Move(old(View()), who, pass)
    {
      match who {
        case Handler(id) => handlers := handlers[id := pass];
        case Starter => startup := pass;
      }
    }

    /** A replacement runs on to its next await, or completes and ends the pass. */
    method RunToAwait(who: Who, job: Job)
      requires Known(View(), who)
      modifies this
      ensures View() == Advance(old(View()), who, if job.Removing? then Remove(old(Reg()), job.todo, job.names)
                                                  else Add(old(Reg()), job.todo, job.names))
    {
      var todo, removing := job.todo, job.Removing?;
      if removing && todo == [] {
        table := Names(job.names);
        todo, removing := job.names, false;
      }
      if todo != [] {
        MoveTask(who, Replacing(if removing then Removing(todo, job.names) else Adding(todo, job.names)));
        return;
      }
      managed := job.names;
      match who {
        case Handler(id) => FinishPass(id);
        case Starter => startup := Over;
      }
    }

    method BeginReplacement(who: Who, names: seq<Name>)
      requires Known(View(), who)
      modifies this
      ensures View() == Advance(old(View()), who, Begin(old(Reg()), names))
    {
      var todo := managed;
      managed := [];
      RunToAwait(who, Removing(todo, names));
    }

    method ServeOne(job: Job)
      requires job.todo != []
      modifies this`registered
      ensures Reg() == Served(old(Reg()), job)
    {
      if job.Removing? {
        RemoveProxy(job.todo[0]);
      } else {
        AddProxy(job.todo[0]);
      }
    }

    method GoOn(who: Who, job: Job)
      requires Known(View(), who) && job.todo != []
      modifies this
      ensures View() == Advance(old(View()), who, Proceed(old(Reg()), job))
    {
      ServeOne(job);
      RunToAwait(who, job.(todo := job.todo[1..]));
    }

    method Handle(e: Event)
      requires Enabled(View(), e)
      modifies this
      ensures View() == Step(old(View()), e)
    {
      match e {
        case Notify => OnToolListChanged();
        case Listed(who, names) => MoveTask(who, Wanting(names));
        case ListFails(who) => FailPass(who);
        case Lock(who) => BeginReplacement(who, (if who.Handler? then handlers[who.id] else startup).names);
        case ServerDone(who) => GoOn(who, (if who.Handler? then handlers[who.id] else startup).job);
        case ServerFails(who, tookEffect) =>
          if tookEffect {
            ServeOne((if who.Handler? then handlers[who.id] else startup).job);
          }
          FailPass(who);
        case StartupTimeout => FailPass(Starter);
      }
    }

    /** Handlers, start-up pass and tool server over any events: exactly the protocol's run. */
    method RunEvents(events: seq<Event>)
      requires Feasible(View(), events)
      modifies this
      ensures View() == Run(old(View()), events)
    {
      var i := 0;
      assert events[0..] == events;
      while i < |events|
        invariant i <= |events|
        invariant Feasible(View(), events[i..]) && Run(View(), events[i..]) == Run(old(View()), events)
      {
        assert events[i..][1..] == events[i + 1..];
        Handle(events[i]);
        i := i + 1;
      }
    }
  }
}
