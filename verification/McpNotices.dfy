/** What notifications, confirmations and failures do to the refresh, event by event and counted over runs. */
module McpNotices {
  import opened Options
  import opened McpRefresh
  import opened McpRouting

  /** How many notifications found the client in working order. */
  function Heard(s: State, events: seq<Event>): nat
    requires Feasible(s, events)
    decreases |events|
  {
    if events == [] then 0
    else (if events[0].Notify? && !s.failed then 1 else 0) + Heard(Step(s, events[0]), events[1..])
  }

  lemma HeardStep(s: State, e: Event)
    requires Enabled(s, e)
    ensures Step(s, e).ledger.accepted == s.ledger.accepted + (if e.Notify? && !s.failed then 1 else 0)
  {
  }

  lemma {:induction false} HeardRun(s: State, events: seq<Event>)
    requires Feasible(s, events)
    ensures Run(s, events).ledger.accepted == s.ledger.accepted + Heard(s, events)
    decreases |events|
  {
    if events != [] {
      HeardStep(s, events[0]);
      HeardRun(Step(s, events[0]), events[1..]);
    }
  }

  /** The notifications accepted are exactly those that came before any failure. */
  lemma AcceptedAreHeard(events: seq<Event>, s: State)
    requires Happens(events, s)
    ensures s.ledger.accepted == Heard(Start(), events)
  {
    HeardRun(Start(), events);
  }

  /** A notification starts a refresh exactly if none runs and nothing has failed; otherwise its handler is done at once. */
  lemma NotifyStartsIff(events: seq<Event>, s: State)
    requires Happens(events, s)
    ensures var t := Step(s, Notify);
            && |t.handlers| == |s.handlers| + 1 && t.handlers[..|s.handlers|] == s.handlers
            && t.reg == s.reg && t.startup == s.startup && t.failed == s.failed
            && (t.handlers[|s.handlers|].Listing? <==> s.refresh.Idle? && !s.failed)
            && (t.handlers[|s.handlers|].Over? <==> !s.refresh.Idle? || s.failed)
            && (t.refresh.Pending? <==> s.refresh.Pending? || (s.refresh.Running? && !s.failed))
  {
    RunKeepsFlight(Start(), events);
  }

  /** A failure ends its pass and closes routing for good; of the registry it leaves what the tool server did. */
  lemma FailureCloses(events: seq<Event>, s: State, who: Who, tookEffect: bool)
    requires Happens(events, s) && Known(s, who)
    ensures Enabled(s, ListFails(who)) ==> Closes(s, who, Step(s, ListFails(who))) && Step(s, ListFails(who)).reg == s.reg
    ensures Enabled(s, ServerFails(who, tookEffect)) ==>
              var t := Step(s, ServerFails(who, tookEffect));
              && Closes(s, who, t)
              && t.reg == if tookEffect then Served(s.reg, PassOf(s, who).job) else s.reg
    ensures Enabled(s, StartupTimeout) ==>
              Closes(s, Starter, Step(s, StartupTimeout)) && Step(s, StartupTimeout).reg == s.reg
  {
  }

  ghost predicate Closes(s: State, who: Who, t: State) {
    && t.failed && Known(t, who) && PassOf(t, who).Over?
    && |t.handlers| == |s.handlers|
    && (forall other | Known(s, other) && other != who :: PassOf(t, other) == PassOf(s, other))
    && t.refresh == (if who.Handler? then Idle else s.refresh)
  }

  /** What the tool server was asked is what the registered proxies show. */
  lemma ServedIs(g: Registry, job: Job)
    requires job.todo != []
    ensures var h := Served(g, job);
            && h.table == g.table && h.managed == g.managed
            && forall n :: n in h.registered <==>
                 if n == job.todo[0] then job.Adding? else n in g.registered
  {
  }

  /** A pass that has its list waits for the lock with exactly that list, and goes on in no other pass's place. */
  lemma ListedWaits(s: State, who: Who, names: seq<Name>)
    requires Enabled(s, Listed(who, names))
    ensures var t := Step(s, Listed(who, names));
            && Known(t, who) && PassOf(t, who) == Wanting(names)
            && t.reg == s.reg && t.failed == s.failed && t.refresh == s.refresh
            && forall other | Known(s, other) && other != who :: Known(t, other) && PassOf(t, other) == PassOf(s, other)
  {
  }

  /** A replacement that has the lock first removes what is managed, in order, and only then publishes and adds. */
  lemma ReplacementBegins(g: Registry, names: seq<Name>)
    ensures var p := Begin(g, names);
            && p.reg.registered == g.registered
            && (g.managed != [] ==> p == Progress(g.(managed := []), Some(Removing(g.managed, names))))
            && (g.managed == [] ==>
                  p.reg.table == Names(names) && (names != [] ==> p.job == Some(Adding(names, names))))
            && (p.job.None? <==> g.managed == [] && names == [])
  {
  }

  /** Each confirmed call is one step along the list; the last removal publishes, the last addition is kept. */
  lemma ReplacementGoesOn(g: Registry, job: Job)
    requires job.todo != []
    ensures var p, rest := Proceed(g, job), job.todo[1..];
            && p.reg.registered == Served(g, job).registered
            && (rest != [] ==> p.job == Some(job.(todo := rest)) && p.reg.table == g.table && p.reg.managed == g.managed)
            && (rest == [] && job.Removing? ==>
                  p.reg.table == Names(job.names) && (p.job.None? <==> job.names == [])
                  && (p.job.Some? ==> p.job.value == Adding(job.names, job.names)))
            && (rest == [] && job.Adding? ==> p.job.None? && p.reg.managed == job.names && p.reg.table == g.table)
  {
  }

  /** A completed start-up pass is over; a handler's is over too, or lists again if something was notified meanwhile. */
  lemma CompletedPassIs(events: seq<Event>, s: State, e: Event)
    requires Happens(events, s) && Completing(s, e)
    ensures var t := Step(s, e);
            && Known(t, e.who) && t.failed == s.failed
            && (e.who.Starter? ==> PassOf(t, e.who).Over? && t.refresh == s.refresh)
            && (e.who.Handler? ==>
                  && PassOf(t, e.who) == (if s.refresh.Pending? then Listing else Over)
                  && t.refresh == (if s.refresh.Pending? then Running else Idle))
  {
    RunKeepsFlight(Start(), events);
  }
}
