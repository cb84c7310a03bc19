/**
 Routing coverage: every proxy the handler has registered is in its routing table at
 every await of every replacement, and when that can fail.
 */
module McpRouting {
  import opened Options
  import opened McpRefresh

  ghost predicate Covered(g: Registry) { g.registered <= g.table }

  /** Between replacements nothing is left over. */
  ghost predicate Clean(g: Registry) { g.registered == Names(g.managed) == g.table }

  /** The proxies the managed list does not name are among the new names. */
  predicate LeftoversFit(g: Registry, names: seq<Name>) { g.registered - Names(g.managed) <= Names(names) }

  ghost predicate JobOk(g: Registry, job: Job) {
    job.todo != [] && g.managed == [] &&
    match job
    case Removing(todo, names) => g.registered - Names(todo) <= Names(names)
    case Adding(todo, names) => g.table == Names(names) == g.registered + Names(todo)
  }

  ghost predicate ProgressOk(p: Progress) {
    Covered(p.reg) && (if p.job.Some? then JobOk(p.reg, p.job.value) else Clean(p.reg))
  }

  // ---- One replacement -----------------------------------------------------

  /** The replacement once the tool server has confirmed every removal. */
  function AfterRemovals(p: Progress): Progress
    requires p.job.Some? && p.job.value.Removing? ==> p.job.value.todo != []
    decreases if p.job.Some? && p.job.value.Removing? then |p.job.value.todo| else 0
  {
    if p.job.Some? && p.job.value.Removing? then AfterRemovals(Proceed(p.reg, p.job.value)) else p
  }

  lemma {:induction false} RemovalsConfirmed(g: Registry, todo: seq<Name>, names: seq<Name>)
    ensures var p := AfterRemovals(Remove(g, todo, names));
            p.reg.table == Names(names) && p.reg.registered == g.registered - Names(todo)
    decreases |todo|
  {
    if todo != [] {
      RemovalsConfirmed(Served(g, Removing(todo, names)), todo[1..], names);
    } else {
      assert Names(todo) == {};
    }
  }

  /**
   Whatever came before, publishing the new table keeps every registered proxy covered
   exactly when the proxies missing from the managed list are among the new names.
   */
  lemma PublishingCovers(g: Registry, names: seq<Name>)
    ensures Covered(AfterRemovals(Begin(g, names)).reg) <==> LeftoversFit(g, names)
  {
    RemovalsConfirmed(g.(managed := []), g.managed, names);
  }

  // ---- Every run -----------------------------------------------------------

  /** Whenever a replacement takes the lock, the leftovers of earlier ones are among its names. */
  predicate AlwaysFit(s: State, events: seq<Event>)
    requires Feasible(s, events)
    decreases |events|
  {
    events != [] ==>
      (events[0].Lock? ==> LockFits(s, events[0].who)) && AlwaysFit(Step(s, events[0]), events[1..])
  }

  predicate LockFits(s: State, who: Who)
    requires Enabled(s, Lock(who))
  {
    LeftoversFit(s.reg, PassOf(s, who).names)
  }

  ghost predicate Inside(s: State, who: Who) { Known(s, who) && PassOf(s, who).Replacing? }

  ghost predicate CoverInv(s: State) {
    && Covered(s.reg)
    && (forall who | Inside(s, who) :: JobOk(s.reg, PassOf(s, who).job))
    && (forall a, b | Inside(s, a) && Inside(s, b) :: a == b)
    && (Clean(s.reg) || s.ledger.torn || exists who :: Inside(s, who))
  }

  lemma FailCovers(s: State, who: Who, reg: Registry)
    requires CoverInv(s) && Known(s, who) && Covered(reg) && (Inside(s, who) || reg == s.reg)
    ensures CoverInv(Fail(s, who, reg))
  {
    var t := Fail(s, who, reg);
    assert forall a | Inside(t, a) :: Inside(s, a) && a != who && PassOf(t, a) == PassOf(s, a);
    if !t.ledger.torn && !Clean(s.reg) {
      var a :| Inside(s, a);
      assert Inside(t, a);
    }
  }

  lemma AdvanceCovers(s: State, who: Who, p: Progress)
    requires CoverInv(s) && Known(s, who) && ProgressOk(p)
    requires forall a | Inside(s, a) :: a == who
    ensures CoverInv(Advance(s, who, p))
  {
    var t := Advance(s, who, p);
    forall a | Inside(t, a) ensures a == who {
      assert a != who ==> Inside(s, a);
    }
    assert p.job.Some? ==> Inside(t, who);
  }

  lemma StepCovers(s: State, e: Event)
    requires CoverInv(s) && Enabled(s, e) && (e.Lock? ==> LockFits(s, e.who))
    ensures CoverInv(Step(s, e))
  {
    match e
    case Notify => SameInside(s, Step(s, e));
    case Listed(who, names) => SameInside(s, Step(s, e));
    case ListFails(who) => FailCovers(s, who, s.reg);
    case Lock(who) =>
      assert forall a :: !Inside(s, a);
      AdvanceCovers(s, who, Begin(s.reg, PassOf(s, who).names));
    case ServerDone(who) =>
      assert Inside(s, who);
      AdvanceCovers(s, who, Proceed(s.reg, PassOf(s, who).job));
    case ServerFails(who, tookEffect) =>
      assert Inside(s, who);
      FailCovers(s, who, if tookEffect then Served(s.reg, PassOf(s, who).job) else s.reg);
    case StartupTimeout => FailCovers(s, Starter, s.reg);
  }

  lemma SameInside(s: State, t: State)
    requires CoverInv(s) && t.reg == s.reg && t.ledger.torn == s.ledger.torn
    requires forall who :: Inside(t, who) <==> Inside(s, who)
    requires forall who | Inside(s, who) :: Known(t, who) && PassOf(t, who) == PassOf(s, who)
    ensures CoverInv(t)
  {
  }

  lemma {:induction false} RunCovers(s: State, events: seq<Event>)
    requires CoverInv(s) && Feasible(s, events) && AlwaysFit(s, events)
    ensures CoverInv(Run(s, events))
    decreases |events|
  {
    if events != [] {
      StepCovers(s, events[0]);
      RunCovers(Step(s, events[0]), events[1..]);
    }
  }

  /**
   At every await of every replacement, early exits included, the routing table covers
   every registered proxy, in every run whose replacements find the leftovers of earlier
   ones among their names. Until one ends early there are no leftovers at all.
   */
  lemma AlwaysCovered(events: seq<Event>, s: State)
    requires Happens(events, s) && AlwaysFit(Start(), events)
    ensures Covered(s.reg)
    ensures !s.ledger.torn && (forall who :: !Inside(s, who)) ==> Clean(s.reg)
  {
    assert Names([]) == {};
    RunCovers(Start(), events);
  }

  lemma BeginIsOrderly(g: Registry, names: seq<Name>)
    requires Covered(g) && LeftoversFit(g, names)
    ensures ProgressOk(Begin(g, names))
  {
    assert Names([]) == {};
  }

  lemma ProceedIsOrderly(g: Registry, job: Job)
    requires Covered(g) && JobOk(g, job)
    ensures ProgressOk(Proceed(g, job))
  {
    assert Names([]) == {};
    assert job.todo == [job.todo[0]] + job.todo[1..];
  }

  /** A replacement ends with this event: with its last confirmed call, or at once if there is nothing to do. */
  predicate Completing(s: State, e: Event) {
    Enabled(s, e) &&
    match e
    case Lock(who) => Begin(s.reg, PassOf(s, who).names).job.None?
    case ServerDone(who) => Proceed(s.reg, PassOf(s, who).job).job.None?
    case _ => false
  }

  /** A replacement that completes in such a run leaves table, managed list and proxies equal. */
  lemma CompletionIsClean(events: seq<Event>, s: State, e: Event, t: State)
    requires Happens(events, s) && AlwaysFit(Start(), events) && Follows(s, e, t)
    requires Completing(s, e) && (e.Lock? ==> LockFits(s, e.who))
    ensures Clean(t.reg)
  {
    assert Names([]) == {};
    RunCovers(Start(), events);
    match e
    case Lock(who) => BeginIsOrderly(s.reg, PassOf(s, who).names);
    case ServerDone(who) =>
      assert Inside(s, who);
      ProceedIsOrderly(s.reg, PassOf(s, who).job);
  }

  // ---- The condition is exact ----------------------------------------------

  /** The tool server confirms every removal, and a proxy that does not fit loses its route. */
  lemma {:induction false} RemovesAndPublishes(s: State, who: Who) returns (more: seq<Event>)
    requires Inside(s, who) && PassOf(s, who).job.Removing? && PassOf(s, who).job.todo != []
    requires !(s.reg.registered - Names(PassOf(s, who).job.todo) <= Names(PassOf(s, who).job.names))
    ensures Feasible(s, more) && AlwaysFit(s, more) && !Covered(Run(s, more).reg)
    decreases |PassOf(s, who).job.todo|
  {
    var todo, e := PassOf(s, who).job.todo, ServerDone(who);
    assert Names([]) == {};
    more := [];
    if |todo| > 1 {
      more := RemovesAndPublishes(Step(s, e), who);
    }
    First(s, e, more);
    assert ([e] + more)[1..] == more;
    more := [e] + more;
  }

  /** Every state from here on is covered, as long as later replacements fit. */
  ghost predicate StaysCovered(s: State) {
    forall more | Feasible(s, more) && AlwaysFit(s, more) :: Covered(Run(s, more).reg)
  }

  lemma UnfitLoses(s: State, who: Who)
    requires Enabled(s, Lock(who)) && !LockFits(s, who)
    ensures !StaysCovered(Step(s, Lock(who)))
  {
    assert Names([]) == {};
    var t := Step(s, Lock(who));
    var more := [];
    if s.reg.managed != [] {
      more := RemovesAndPublishes(t, who);
    }
    assert Feasible(t, more) && AlwaysFit(t, more) && !Covered(Run(t, more).reg);
  }

  /**
   After a run like that, a replacement that takes the lock keeps every later state
   covered, whatever follows with leftovers that fit, exactly if its own leftovers fit.
   */
  lemma CoveredIffFit(events: seq<Event>, s: State, who: Who)
    requires Happens(events, s) && AlwaysFit(Start(), events) && Enabled(s, Lock(who))
    ensures LockFits(s, who) <==> StaysCovered(Step(s, Lock(who)))
  {
    assert Names([]) == {};
    RunCovers(Start(), events);
    if LockFits(s, who) {
      StepCovers(s, Lock(who));
      forall more | Feasible(Step(s, Lock(who)), more) && AlwaysFit(Step(s, Lock(who)), more)
        ensures Covered(Run(Step(s, Lock(who)), more).reg)
      {
        RunCovers(Step(s, Lock(who)), more);
      }
    } else {
      UnfitLoses(s, who);
    }
  }

  // ---- A run that loses coverage -------------------------------------------

  ghost const Tools: seq<Name> := ["a", "b"]

  /** A refresh has listed no tools and waits, while the start-up pass has registered the first of two. */
  ghost const HalfRegistered: State :=
    State(Registry(Names(Tools), {"a"}, []), Running, false, [Wanting([])], Replacing(Adding(["b"], Tools)),
          Ledger(1, 1, 1, 0, false, false, Some(0)))

  ghost const Opening: seq<Event> :=
    [Notify] + ([Listed(Handler(0), [])] + ([Listed(Starter, Tools)] + ([Lock(Starter)] + ([ServerDone(Starter)] + []))))

  lemma HalfRegisteredHappens()
    ensures Feasible(Start(), Opening) && Run(Start(), Opening) == HalfRegistered
  {
    var s1 := State(Registry({}, {}, []), Running, false, [Listing], Listing, HalfRegistered.ledger);
    var s2 := s1.(handlers := [Wanting([])]);
    var s3 := s2.(startup := Wanting(Tools));
    var s4 := s2.(reg := Registry(Names(Tools), {}, []), startup := Replacing(Adding(Tools, Tools)));
    assert Step(Start(), Notify) == s1;
    assert Step(s1, Listed(Handler(0), [])) == s2;
    assert Step(s3, Lock(Starter)) == s4;
    assert Tools[1..] == ["b"];
    assert Step(s4, ServerDone(Starter)) == HalfRegistered;
    First(s4, ServerDone(Starter), []);
    First(s3, Lock(Starter), [ServerDone(Starter)] + []);
    First(s2, Listed(Starter, Tools), [Lock(Starter)] + ([ServerDone(Starter)] + []));
    First(s1, Listed(Handler(0), []), [Listed(Starter, Tools)] + ([Lock(Starter)] + ([ServerDone(Starter)] + [])));
    First(Start(), Notify, Opening[1..]);
  }

  /**
   It happens: the start-up replacement is dropped by its deadline after registering a
   proxy, a refresh that was already listing publishes other names, and the proxy stays
   registered without a route.
   */
  lemma CoverageCanBeLost()
    ensures var events := Opening + [StartupTimeout, Lock(Handler(0))];
            && Feasible(Start(), events)
            && "a" in Run(Start(), events).reg.registered && Run(Start(), events).reg.table == {}
  {
    var s6 := Step(HalfRegistered, StartupTimeout);
    assert s6.handlers == [Wanting([])] && s6.startup == Over;
    var s7 := Step(s6, Lock(Handler(0)));
    assert Names([]) == {};
    var ending := [StartupTimeout] + ([Lock(Handler(0))] + []);
    assert ending == [StartupTimeout, Lock(Handler(0))];
    First(s6, Lock(Handler(0)), []);
    First(HalfRegistered, StartupTimeout, [Lock(Handler(0))] + []);
    HalfRegisteredHappens();
    RunFurther(Start(), Opening, ending);
  }
}
