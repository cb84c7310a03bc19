/** What the wake and tick loop does with its turns: whom a wake word greets, and what a tick replaces. */
module WakeTurns {
  import opened Options
  import Supervision
  import opened WakeLoops

  ghost predicate AtRest(native: bool, prepared: bool, events: seq<Event>, m: Loop) {
    Happens(native, prepared, events, m) && m.pc.AtSelect?
  }

  /** The event can happen here and the loop can then go on at once. */
  ghost predicate GoesOn(m: Loop, e: Event, luck: Luck) { Enabled(m, e) && Enabled(Step(m, e), Resume(luck)) }

  /** The loop is back at its select with this turn as the active one, and no warm one. */
  ghost predicate Active(t: Loop, id: nat) {
    t.pc.AtSelect? && t.active == Some(Native(id)) && t.warm.None? && id < |t.sup.sessions|
  }

  /** The loop starts at its select, with a warm turn exactly if it is native and one could be prepared. */
  lemma StartsWarm(native: bool, prepared: bool)
    ensures var m := Start(native, prepared);
            && m.pc.AtSelect? && m.active.None? && m.native == native && m.sup.slot.None?
            && m.warm == (if native && prepared then Some(0) else None)
            && m.sup.sessions == if native && prepared then [Supervision.Fresh] else []
  {
  }

  /** Beside the loop only its tasks move: a legacy turn ends, or a session's task takes a step. */
  lemma TasksMoveOn(m: Loop, task: Supervision.Event)
    ensures Enabled(m, LegacyEnds) ==> Step(m, LegacyEnds).active == Some(Legacy(true)) && Step(m, LegacyEnds).sup == m.sup
    ensures Enabled(m, Moves(task)) ==>
              Step(m, Moves(task)) == m.(sup := Step(m, Moves(task)).sup) &&
              Supervision.Follows(m.sup, task, Step(m, Moves(task)).sup)
  {
  }

  // ---- Waking --------------------------------------------------------------

  /** A wake word with a warm turn ready greets it: it is activated and becomes the active one. */
  lemma WakeGreetsTheWarmTurn(native: bool, prepared: bool, events: seq<Event>, m: Loop, luck: Luck)
    requires AtRest(native, prepared, events, m)
    requires m.active.None? && m.warm.Some? && !Finished(m, m.warm.value)
    ensures GoesOn(m, Wake, luck)
    ensures var t := Step(Step(m, Wake), Resume(luck));
            && Enabled(t, Resume(luck))
            && Active(Step(t, Resume(luck)), m.warm.value)
            && Step(t, Resume(luck)).sup == Supervision.Step(m.sup, Supervision.Activate(m.warm.value))
  {
    RunKeeps(Start(native, prepared), events);
  }

  /** Without a warm turn a wake word prepares and greets a new one, or a legacy turn is started. */
  lemma WakeWithoutWarmTurn(native: bool, prepared: bool, events: seq<Event>, m: Loop, luck: Luck)
    requires AtRest(native, prepared, events, m) && m.active.None? && m.warm.None?
    ensures GoesOn(m, Wake, luck)
    ensures var t := Step(Step(m, Wake), Resume(luck));
            if !m.native then t == m.(active := Some(Legacy(false)))
               else if !luck.preparable then t == m
               else
                 && |t.sup.sessions| == |m.sup.sessions| + 1 && t.sup.sessions[|m.sup.sessions|].activated
                 && Enabled(t, Resume(luck)) && Active(Step(t, Resume(luck)), |m.sup.sessions|)
  {
    RunKeeps(Start(native, prepared), events);
  }

  /** A warm turn that has ended is joined first; then it is as if there were none. */
  lemma WakeJoinsAStaleWarmTurn(native: bool, prepared: bool, events: seq<Event>, m: Loop, luck: Luck)
    requires AtRest(native, prepared, events, m)
    requires m.active.None? && m.warm.Some? && Finished(m, m.warm.value)
    ensures GoesOn(m, Wake, luck) && GoesOn(Step(m, Wake), Resume(luck), luck)
    ensures var t := Step(Step(Step(m, Wake), Resume(luck)), Resume(luck));
            if !luck.preparable then t == m.(warm := None)
               else
                 && |t.sup.sessions| == |m.sup.sessions| + 1 && t.sup.sessions[|m.sup.sessions|].activated
                 && Enabled(t, Resume(luck)) && Active(Step(t, Resume(luck)), |m.sup.sessions|)
  {
    RunKeeps(Start(native, prepared), events);
  }

  /** An active turn that cannot be interrupted is told to cancel, waited for, and then replaced. */
  lemma WakeReplacesTheActiveTurn(native: bool, prepared: bool, events: seq<Event>, m: Loop)
    requires AtRest(native, prepared, events, m) && m.active.Some?
    requires m.active.value.Native? ==> TurnFinished(m, m.active.value)
    ensures Enabled(m, Wake)
    ensures var t := Step(m, Wake);
            && t.active.None? && t.warm.None?
            && if m.active.value.Legacy? then t.pc.Preparing? && t.sup == m.sup
               else
                 && t.pc == ReplacingActive(m.active.value.id)
                 && t.sup == Supervision.Step(m.sup, Supervision.Cancel(m.active.value.id))
                 && forall luck :: Enabled(t, Resume(luck)) && Step(t, Resume(luck)) == t.(pc := Preparing)
  {
    RunKeeps(Start(native, prepared), events);
  }

  // ---- Ticks ---------------------------------------------------------------

  /** A new turn was prepared and is the warm one. */
  ghost predicate Warmed(s: Supervision.State, t: Loop) {
    && t.warm == Some(|s.sessions|)
    && |t.sup.sessions| == |s.sessions| + 1 && t.sup.sessions[..|s.sessions|] == s.sessions
    && !t.sup.sessions[|s.sessions|].activated
  }

  /** An active turn that has ended is joined; a native one is followed by a new warm turn, if one can be prepared. */
  lemma TickReplacesTheFinishedTurn(native: bool, prepared: bool, events: seq<Event>, m: Loop, luck: Luck)
    requires AtRest(native, prepared, events, m) && m.active.Some? && TurnFinished(m, m.active.value)
    ensures GoesOn(m, Tick(luck), luck)
    ensures var t := Step(Step(m, Tick(luck)), Resume(luck));
            && t.active.None? && t.pc.Blinking?
            && if m.active.value.Native? && luck.preparable then Warmed(m.sup, t) else t.warm.None? && t.sup == m.sup
  {
    RunKeeps(Start(native, prepared), events);
  }

  /** A tick told to rotate, or that finds the warm turn too old, cancels it and waits for its task. */
  lemma TickRetiresTheWarmTurn(native: bool, prepared: bool, events: seq<Event>, m: Loop, luck: Luck)
    requires AtRest(native, prepared, events, m) && m.warm.Some?
    ensures Enabled(m, Tick(luck))
    ensures var t, id := Step(m, Tick(luck)), m.warm.value;
            if luck.rotate || luck.tooOld then
              && t.warm.None? && t.pc == (if luck.rotate then Rotating(id) else Retiring(id))
              && t.sup == Supervision.Step(m.sup, Supervision.Cancel(id))
              && forall next :: Enabled(t, Resume(next)) <==> Finished(m, id)
            else if Finished(m, id) then t == m.(pc := JoiningWarm(id), warm := None)
            else t == m
  {
    RunKeeps(Start(native, prepared), events);
  }

  /** The loop has no turn at all and has joined whatever it was joining. */
  ghost predicate Bare(m: Loop) {
    && m.active.None? && m.warm.None?
    && (m.pc.AtSelect? || m.pc.Rotating? || m.pc.Retiring? || m.pc.JoiningWarm? || m.pc.Blinking?)
  }

  /** With no turn left a tick prepares a warm one exactly if the loop is native, it is time, and that works. */
  lemma TickRespawns(native: bool, prepared: bool, events: seq<Event>, m: Loop, luck: Luck)
    requires Happens(native, prepared, events, m) && Bare(m) && (m.pc.AtSelect? || CanResume(m))
    ensures var e := if m.pc.AtSelect? then Tick(luck) else Resume(luck);
            && Enabled(m, e) && Step(m, e).pc.AtSelect? && Step(m, e).active.None?
            && if m.native && luck.respawnDue && luck.preparable then Warmed(m.sup, Step(m, e))
               else Step(m, e) == m.(pc := AtSelect)
  {
    RunKeeps(Start(native, prepared), events);
  }

  /** A tick leaves an unfinished active turn alone. */
  lemma TickLeavesTheActiveTurn(native: bool, prepared: bool, events: seq<Event>, m: Loop, luck: Luck)
    requires AtRest(native, prepared, events, m) && m.active.Some? && !TurnFinished(m, m.active.value)
    ensures Enabled(m, Tick(luck)) && Step(m, Tick(luck)) == m
  {
    RunKeeps(Start(native, prepared), events);
  }
}
