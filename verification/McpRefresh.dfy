/**
 Tool-list refresh and native routing of the MCP handler.

 One step is one poll segment of a notification handler or of the start-up pass.
 Within a segment nothing else runs: the compare-exchange that ends a pass and the
 guard's unconditional store to idle are one step, and so are the two successive
 compare-exchanges of a notification that finds a refresh running. A grain that
 lets threads interleave inside a segment is not this model's.
 */
module McpRefresh {
  import opened Options

  type Name = string

  /** The native routing table, the proxies this handler registered, and the list it manages. */
  datatype Registry = Registry(table: set<Name>, registered: set<Name>, managed: seq<Name>)

  /** `replace_tools` at one of its awaits: the tool server works on `todo[0]`. */
  datatype Job =
    | Removing(todo: seq<Name>, names: seq<Name>)
    | Adding(todo: seq<Name>, names: seq<Name>)

  /** Where a replacement stands after a segment; no job means it returned. */
  datatype Progress = Progress(reg: Registry, job: Option<Job>)

  function Names(names: seq<Name>): set<Name> { set n | n in names }

  function Remove(g: Registry, todo: seq<Name>, names: seq<Name>): Progress {
    if todo != [] then Progress(g, Some(Removing(todo, names)))
    else Add(g.(table := Names(names)), names, names)
  }

  function Add(g: Registry, todo: seq<Name>, names: seq<Name>): Progress {
    if todo != [] then Progress(g, Some(Adding(todo, names)))
    else Progress(g.(managed := names), None)
  }

  /** The managed list is drained first, so it stays empty unless the replacement completes. */
  function Begin(g: Registry, names: seq<Name>): Progress {
    Remove(g.(managed := []), g.managed, names)
  }

  /** The tool server's answer, as far as the registered proxies go. */
  function Served(g: Registry, job: Job): Registry
    requires job.todo != []
  {
    match job
    case Removing(todo, _) => g.(registered := g.registered - {todo[0]})
    case Adding(todo, _) => g.(registered := g.registered + {todo[0]})
  }

  function Proceed(g: Registry, job: Job): Progress
    requires job.todo != []
  {
    match job
    case Removing(todo, names) => Remove(Served(g, job), todo[1..], names)
    case Adding(todo, names) => Add(Served(g, job), todo[1..], names)
  }

  // ---- The refresh machine -------------------------------------------------

  datatype RefreshState = Idle | Running | Pending

  /** Where a notification handler, or the start-up pass, is suspended. */
  datatype Pass = Listing | Wanting(names: seq<Name>) | Replacing(job: Job) | Over

  /** What has happened, for the theorems only; `runner` is the handler holding the guard. */
  datatype Ledger = Ledger(
    accepted: nat,
    passes: nat,
    seenByPass: nat,
    late: nat,
    refreshFailed: bool,
    torn: bool,
    runner: Option<nat>)

  datatype State = State(
    reg: Registry,
    refresh: RefreshState,
    failed: bool,
    handlers: seq<Pass>,
    startup: Pass,
    ledger: Ledger)

  function Start(): State {
    State(Registry({}, {}, []), Idle, false, [], Listing, Ledger(0, 0, 0, 0, false, false, None))
  }

  datatype Who = Handler(id: nat) | Starter

  datatype Event =
    | Notify
    | Listed(who: Who, names: seq<Name>)
    | ListFails(who: Who)
    | Lock(who: Who)
    | ServerDone(who: Who)
    | ServerFails(who: Who, tookEffect: bool)
    | StartupTimeout

  predicate Known(s: State, who: Who) { who.Handler? ==> who.id < |s.handlers| }

  function PassOf(s: State, who: Who): Pass
    requires Known(s, who)
  {
    if who.Handler? then s.handlers[who.id] else s.startup
  }

  function Move(s: State, who: Who, pass: Pass): State
    requires Known(s, who)
  {
    if who.Handler? then s.(handlers := s.handlers[who.id := pass]) else s.(startup := pass)
  }

  /** A list pass begins and sees everything accepted so far. */
  function NewPass(l: Ledger, runner: nat, failed: bool): Ledger {
    l.(passes := l.passes + 1, seenByPass := l.accepted, late := if failed then l.late + 1 else l.late,
       runner := Some(runner))
  }

  function Accepted(l: Ledger): Ledger { l.(accepted := l.accepted + 1) }

  /** A handler whose notification is coalesced or ignored returns at once. */
  function OnNotify(s: State): State {
    if s.failed then s.(handlers := s.handlers + [Over])
    else
      match s.refresh
      case Idle =>
        s.(refresh := Running, handlers := s.handlers + [Listing],
           ledger := NewPass(Accepted(s.ledger), |s.handlers|, false))
      case Running => s.(refresh := Pending, handlers := s.handlers + [Over], ledger := Accepted(s.ledger))
      case Pending => s.(handlers := s.handlers + [Over], ledger := Accepted(s.ledger))
  }

  /** A pass fails: routing is closed and a handler's guard stores idle. */
  function Fail(s: State, who: Who, reg: Registry): State
    requires Known(s, who)
  {
    var torn := s.ledger.torn || PassOf(s, who).Replacing?;
    if who.Handler? then
      s.(reg := reg, failed := true, refresh := Idle, handlers := s.handlers[who.id := Over],
         ledger := s.ledger.(refreshFailed := true, torn := torn, runner := None))
    else s.(reg := reg, failed := true, startup := Over, ledger := s.ledger.(torn := torn))
  }

  /** A replacement reached `p`; a handler that completed it returns or, if notified, goes around. */
  function Advance(s: State, who: Who, p: Progress): State
    requires Known(s, who)
  {
    if p.job.Some? then Move(s.(reg := p.reg), who, Replacing(p.job.value))
    else if who.Starter? then s.(reg := p.reg, startup := Over)
    else if s.refresh.Running? then
      s.(reg := p.reg, refresh := Idle, handlers := s.handlers[who.id := Over], ledger := s.ledger.(runner := None))
    else
      s.(reg := p.reg, refresh := Running, handlers := s.handlers[who.id := Listing],
         ledger := NewPass(s.ledger, who.id, s.failed))
  }

  predicate Busy(p: Pass) { p.Replacing? && p.job.todo != [] }

  /** The managed list's lock is free: nobody is inside a replacement. */
  predicate LockFree(s: State) { !s.startup.Replacing? && forall p | p in s.handlers :: !p.Replacing? }

  predicate Enabled(s: State, e: Event) {
    match e
    case Notify => true
    case Listed(who, _) => Known(s, who) && PassOf(s, who).Listing?
    case ListFails(who) => Known(s, who) && PassOf(s, who).Listing?
    case Lock(who) => Known(s, who) && PassOf(s, who).Wanting? && LockFree(s)
    case ServerDone(who) => Known(s, who) && Busy(PassOf(s, who))
    case ServerFails(who, _) => Known(s, who) && Busy(PassOf(s, who))
    case StartupTimeout => s.startup.Wanting? || s.startup.Replacing?
  }

  function Step(s: State, e: Event): State
    requires Enabled(s, e)
  {
    match e
    case Notify => OnNotify(s)
    case Listed(who, names) => Move(s, who, Wanting(names))
    case ListFails(who) => Fail(s, who, s.reg)
    case Lock(who) => Advance(s, who, Begin(s.reg, PassOf(s, who).names))
    case ServerDone(who) => Advance(s, who, Proceed(s.reg, PassOf(s, who).job))
    case ServerFails(who, tookEffect) =>
      Fail(s, who, if tookEffect then Served(s.reg, PassOf(s, who).job) else s.reg)
    case StartupTimeout => Fail(s, Starter, s.reg)
  }

  predicate Feasible(s: State, events: seq<Event>)
    decreases |events|
  {
    events == [] || (Enabled(s, events[0]) && Feasible(Step(s, events[0]), events[1..]))
  }

  function Run(s: State, events: seq<Event>): State
    requires Feasible(s, events)
    decreases |events|
  {
    if events == [] then s else Run(Step(s, events[0]), events[1..])
  }

  predicate Happens(events: seq<Event>, s: State) {
    Feasible(Start(), events) && s == Run(Start(), events)
  }

  /** `t` is `s` after the event. */
  ghost predicate Follows(s: State, e: Event, t: State) { Enabled(s, e) && t == Step(s, e) }

  lemma First(s: State, e: Event, rest: seq<Event>)
    requires Enabled(s, e) && Feasible(Step(s, e), rest)
    ensures Feasible(s, [e] + rest) && Run(s, [e] + rest) == Run(Step(s, e), rest)
  {
    assert ([e] + rest)[1..] == rest;
  }

  // ---- Single flight and no lost notification ------------------------------

  /** Whoever is inside a pass holds the guard. */
  ghost predicate OneRunner(handlers: seq<Pass>, runner: Option<nat>) {
    && (forall i | 0 <= i < |handlers| && !handlers[i].Over? :: runner == Some(i))
    && (runner.Some? ==> runner.value < |handlers| && !handlers[runner.value].Over?)
  }

  ghost predicate LedgerOk(l: Ledger, refresh: RefreshState, failed: bool) {
    && (l.runner.None? <==> refresh.Idle?)
    && (refresh.Pending? <==> l.accepted > l.seenByPass && !l.refreshFailed)
    && l.passes <= l.seenByPass <= l.accepted
    && (l.accepted > 0 || !refresh.Idle? ==> l.passes > 0)
    && (l.refreshFailed ==> failed && refresh.Idle?)
    && l.late + (if refresh.Pending? then 1 else 0) <= 1
    && (!failed ==> l.late == 0)
  }

  ghost predicate Flight(s: State) {
    && OneRunner(s.handlers, s.ledger.runner)
    && LedgerOk(s.ledger, s.refresh, s.failed)
    && (s.failed ==> s.ledger.refreshFailed || s.startup.Over?)
    && (forall p | p in s.handlers && p.Replacing? :: p.job.todo != [])
  }

  lemma AdvanceKeepsFlight(s: State, who: Who, p: Progress)
    requires Flight(s) && Known(s, who) && !PassOf(s, who).Over?
    requires p.job.Some? ==> p.job.value.todo != []
    ensures Flight(Advance(s, who, p))
  {
  }

  lemma StepKeepsFlight(s: State, e: Event)
    requires Flight(s) && Enabled(s, e)
    ensures Flight(Step(s, e))
  {
    match e
    case Notify =>
    case Listed(who, _) =>
    case ListFails(who) =>
    case Lock(who) => AdvanceKeepsFlight(s, who, Begin(s.reg, PassOf(s, who).names));
    case ServerDone(who) => AdvanceKeepsFlight(s, who, Proceed(s.reg, PassOf(s, who).job));
    case ServerFails(who, _) =>
    case StartupTimeout =>
  }

  lemma {:induction false} RunKeepsFlight(s: State, events: seq<Event>)
    requires Flight(s) && Feasible(s, events)
    ensures Flight(Run(s, events))
    ensures s.ledger.refreshFailed ==>
              Run(s, events).ledger.refreshFailed && Run(s, events).ledger.passes == s.ledger.passes
    decreases |events|
  {
    if events != [] {
      StepKeepsFlight(s, events[0]);
      RunKeepsFlight(Step(s, events[0]), events[1..]);
    }
  }

  /** However many notification handlers there are, at most one is inside a refresh. */
  lemma SingleFlight(events: seq<Event>, s: State)
    requires Happens(events, s)
    ensures forall i, j | 0 <= i < j < |s.handlers| :: s.handlers[i].Over? || s.handlers[j].Over?
    ensures s.refresh.Idle? <==> forall i | 0 <= i < |s.handlers| :: s.handlers[i].Over?
  {
    RunKeepsFlight(Start(), events);
  }

  /** Idle without failure: the last list pass began no earlier than the last accepted notification. */
  lemma NoNotificationLost(events: seq<Event>, s: State)
    requires Happens(events, s) && s.refresh.Idle? && !s.failed
    ensures s.ledger.seenByPass == s.ledger.accepted
    ensures s.ledger.accepted > 0 ==> s.ledger.passes > 0
  {
    RunKeepsFlight(Start(), events);
  }

  /** The segment in which a handler's pass succeeds. */
  predicate Completes(s: State, e: Event) {
    Enabled(s, e) &&
    match e
    case Lock(who) => who.Handler? && Begin(s.reg, PassOf(s, who).names).job.None?
    case ServerDone(who) => who.Handler? && Proceed(s.reg, PassOf(s, who).job).job.None?
    case _ => false
  }

  /** One more pass exactly if there was something new, and nothing is left unseen. */
  ghost predicate FollowsUp(before: Ledger, t: State) {
    && t.ledger.passes == before.passes + (if before.accepted > before.seenByPass then 1 else 0)
    && t.ledger.seenByPass == t.ledger.accepted == before.accepted
    && (t.refresh.Idle? <==> before.accepted == before.seenByPass)
  }

  /**
   Any number of notifications accepted during a pass, and only those, cause exactly one
   further pass, which sees them all.
   */
  lemma OneFollowUp(events: seq<Event>, s: State, e: Event, t: State)
    requires Happens(events, s) && Follows(s, e, t) && Completes(s, e)
    ensures FollowsUp(s.ledger, t)
  {
    RunKeepsFlight(Start(), events);
  }

  /** Nothing else begins a pass, apart from the notification that wakes an idle handler. */
  lemma PassesBeginHere(events: seq<Event>, s: State, e: Event, t: State)
    requires Happens(events, s) && Follows(s, e, t)
    ensures t.ledger.passes != s.ledger.passes ==>
              (Completes(s, e) && s.refresh.Pending?) || (e.Notify? && s.refresh.Idle? && !s.failed)
    ensures t.ledger.passes <= s.ledger.passes + 1
  {
    RunKeepsFlight(Start(), events);
  }

  /** After a failed refresh no pass ever begins. */
  lemma NoPassAfterFailure(events: seq<Event>, s: State, more: seq<Event>)
    requires Happens(events, s) && s.ledger.refreshFailed && Feasible(s, more)
    ensures Run(s, more).ledger.passes == s.ledger.passes
    ensures Run(s, more).refresh.Idle?
  {
    RunKeepsFlight(Start(), events);
    RunKeepsFlight(s, more);
  }

  // ---- A pass after a failed start-up pass ---------------------------------

  /** When the start-up pass fails instead, at most one more pass begins. */
  lemma AtMostOneLatePass(events: seq<Event>, s: State)
    requires Happens(events, s)
    ensures s.ledger.late <= 1
    ensures s.ledger.late == 1 ==> s.failed && !s.refresh.Pending?
    ensures !s.failed ==> s.ledger.late == 0
  {
    RunKeepsFlight(Start(), events);
  }

  /** After a failure an unmarked cell stays unmarked, and no pass begins. */
  lemma {:induction false} UnmarkedStaysQuiet(s: State, more: seq<Event>)
    requires Flight(s) && s.failed && !s.refresh.Pending? && Feasible(s, more)
    ensures Run(s, more).ledger.passes == s.ledger.passes
    decreases |more|
  {
    if more != [] {
      StepKeepsFlight(s, more[0]);
      UnmarkedStaysQuiet(Step(s, more[0]), more[1..]);
    }
  }

  /** The tool-server calls a replacement still needs. */
  function Work(job: Job): nat { if job.Removing? then |job.todo| + |job.names| else |job.todo| }

  /** A failed client with a marked cell whose handler `id` is inside its pass. */
  ghost predicate Marked(s: State, id: nat) {
    Flight(s) && s.failed && s.refresh.Pending? && id < |s.handlers| && s.ledger.runner == Some(id)
  }

  /** The handler that is replacing finishes its job and goes around. */
  lemma {:induction false} FinishesJob(s: State, id: nat) returns (more: seq<Event>)
    requires Marked(s, id) && s.handlers[id].Replacing?
    ensures Feasible(s, more) && Run(s, more).ledger.passes == s.ledger.passes + 1
    decreases Work(s.handlers[id].job)
  {
    var h := Handler(id);
    var p := Proceed(s.reg, s.handlers[id].job);
    assert s.handlers[id] in s.handlers;
    StepKeepsFlight(s, ServerDone(h));
    more := [];
    if p.job.Some? {
      more := FinishesJob(Step(s, ServerDone(h)), id);
    }
    First(s, ServerDone(h), more);
    more := [ServerDone(h)] + more;
  }

  /** Wherever the handler is in its pass, it can come to the end of it. */
  lemma MarkedGoesAround(s: State, id: nat) returns (more: seq<Event>)
    requires Marked(s, id)
    ensures Feasible(s, more) && Run(s, more).ledger.passes == s.ledger.passes + 1
  {
    var h := Handler(id);
    if s.handlers[id].Replacing? {
      more := FinishesJob(s, id);
    } else if s.handlers[id].Wanting? {
      more := LocksAndFinishes(s, id);
    } else {
      StepKeepsFlight(s, Listed(h, []));
      more := LocksAndFinishes(Step(s, Listed(h, [])), id);
      First(s, Listed(h, []), more);
      more := [Listed(h, [])] + more;
    }
  }

  lemma LocksAndFinishes(s: State, id: nat) returns (more: seq<Event>)
    requires Marked(s, id) && s.handlers[id].Wanting?
    ensures Feasible(s, more) && Run(s, more).ledger.passes == s.ledger.passes + 1
  {
    var e := Lock(Handler(id));
    assert LockFree(s);
    StepKeepsFlight(s, e);
    more := [];
    if Begin(s.reg, s.handlers[id].names).job.Some? {
      more := FinishesJob(Step(s, e), id);
    }
    First(s, e, more);
    more := [e] + more;
  }

  /** In some continuation more than `passes` list passes begin. */
  ghost predicate CanPass(s: State, passes: nat) {
    exists more :: Feasible(s, more) && Run(s, more).ledger.passes > passes
  }

  /** After any failure, a further pass can begin exactly while the cell is marked pending. */
  lemma LatePassIff(events: seq<Event>, s: State)
    requires Happens(events, s) && s.failed
    ensures CanPass(s, s.ledger.passes) <==> s.refresh.Pending?
  {
    RunKeepsFlight(Start(), events);
    if s.refresh.Pending? {
      var _ := MarkedGoesAround(s, s.ledger.runner.value);
    } else {
      forall more | Feasible(s, more) ensures Run(s, more).ledger.passes == s.ledger.passes {
        UnmarkedStaysQuiet(s, more);
      }
    }
  }

  predicate FailsStartup(e: Event) {
    e == ListFails(Starter) || e.StartupTimeout? || (e.ServerFails? && e.who.Starter?)
  }

  /** So when the start-up pass fails, a later pass can begin exactly if the cell was pending at that moment. */
  lemma LatePassIffPending(events: seq<Event>, s: State, e: Event, t: State)
    requires Happens(events, s) && Follows(s, e, t) && FailsStartup(e)
    ensures CanPass(t, s.ledger.passes) <==> s.refresh.Pending?
  {
    HappensNext(events, s, e);
    LatePassIff(events + [e], t);
  }

  lemma {:induction false} RunFurther(s: State, first: seq<Event>, rest: seq<Event>)
    requires Feasible(s, first) && Feasible(Run(s, first), rest)
    ensures Feasible(s, first + rest) && Run(s, first + rest) == Run(Run(s, first), rest)
    decreases |first|
  {
    if first == [] {
      assert first + rest == rest;
    } else {
      RunFurther(Step(s, first[0]), first[1..], rest);
      assert first + rest == [first[0]] + (first[1..] + rest);
      First(s, first[0], first[1..] + rest);
    }
  }

  lemma HappensNext(events: seq<Event>, s: State, e: Event)
    requires Happens(events, s) && Enabled(s, e)
    ensures Happens(events + [e], Step(s, e))
  {
    First(s, e, []);
    assert [e] + [] == [e];
    RunFurther(Start(), events, [e]);
  }

  /** Two notifications, a failed start-up list and a completed first refresh: a pass begins after the failure. */
  lemma LatePassExists()
    ensures var events := [Notify, Notify, ListFails(Starter), Listed(Handler(0), []), Lock(Handler(0))];
            Feasible(Start(), events) && Run(Start(), events).ledger.late == 1
  {
    var e0, e1, e2, e3, e4 := Notify, Notify, ListFails(Starter), Listed(Handler(0), []), Lock(Handler(0));
    var s1 := Step(Start(), e0);
    var s2 := Step(s1, e1);
    var s3 := Step(s2, e2);
    var s4 := Step(s3, e3);
    First(s4, e4, []);
    First(s3, e3, [e4] + []);
    First(s2, e2, [e3] + ([e4] + []));
    First(s1, e1, [e2] + ([e3] + ([e4] + [])));
    First(Start(), e0, [e1] + ([e2] + ([e3] + ([e4] + []))));
    assert [e0] + ([e1] + ([e2] + ([e3] + ([e4] + [])))) == [e0, e1, e2, e3, e4];
  }
}
