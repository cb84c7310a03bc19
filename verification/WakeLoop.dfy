/**
 The wake and tick loop, moving turns between the warm and the active place, over the
 sessions of `Supervision`.

 The loop is suspended at one of its awaits (`Pc`); while it is, the tasks it spawned
 move. `Resume` is the loop's next segment. Native tasks are never aborted and do not
 panic, so nobody drops their waiters.
 */
module WakeLoops {
  import opened Options
  import Supervision

  datatype Turn = Native(id: nat) | Legacy(finished: bool)

  datatype Pc =
    | AtSelect
    | ReplacingActive(id: nat)
    | Preparing
    | JoiningStaleWarm(id: nat)
    | Greeting(id: nat)
    | JoiningFinished(turn: Turn)
    | Blinking
    | Rotating(id: nat)
    | Retiring(id: nat)
    | JoiningWarm(id: nat)

  datatype Loop = Loop(native: bool, sup: Supervision.State, pc: Pc, active: Option<Turn>, warm: Option<nat>)

  /** What the loop's conditions on clocks, generations and configuration come out as. */
  datatype Luck = Luck(preparable: bool, rotate: bool, tooOld: bool, respawnDue: bool)

  datatype Event =
    | Wake
    | Tick(luck: Luck)
    | Resume(luck: Luck)
    | LegacyEnds
    | Moves(task: Supervision.Event)

  function Session(m: Loop, id: nat): Supervision.Session
    requires id < |m.sup.sessions|
  {
    m.sup.sessions[id]
  }

  /** Start-up prepares the first warm turn. */
  function Start(native: bool, prepared: bool): Loop {
    if native && prepared
    then Loop(native, Supervision.State([Supervision.Fresh], None), AtSelect, None, Some(0))
    else Loop(native, Supervision.Start(), AtSelect, None, None)
  }

  predicate Finished(m: Loop, id: nat) { id < |m.sup.sessions| && m.sup.sessions[id].waiter.Finished? }

  predicate TurnFinished(m: Loop, turn: Turn) { if turn.Native? then Finished(m, turn.id) else turn.finished }

  /** The tasks' own steps: the loop alone prepares, cancels, activates and interrupts. */
  predicate TaskStep(e: Supervision.Event) {
    !e.Prepare? && !e.Cancel? && !e.Activate? && !e.Interrupt? && !e.DropWaiter?
  }

  function Do(m: Loop, e: Supervision.Event): Supervision.State
    requires Supervision.Enabled(m.sup, e)
  {
    Supervision.Step(m.sup, e)
  }

  predicate Exists(m: Loop, id: nat) { id < |m.sup.sessions| }

  /** The warm or a new turn becomes the one being greeted. */
  function Greet(m: Loop, sup: Supervision.State, id: nat): Loop
    requires id < |sup.sessions|
  {
    m.(sup := Supervision.Step(sup, Supervision.Activate(id)), pc := Greeting(id), warm := None)
  }

  function SpawnAndGreet(m: Loop, luck: Luck): Loop {
    if luck.preparable then Greet(m, Do(m, Supervision.Prepare), |m.sup.sessions|)
    else m.(pc := AtSelect, warm := None)
  }

  function OnWake(m: Loop): Loop
    requires m.active.Some? && m.active.value.Native? ==> Exists(m, m.active.value.id)
  {
    match m.active
    case None => m.(pc := Preparing)
    case Some(Legacy(_)) => m.(pc := Preparing, active := None)
    case Some(Native(id)) =>
      if !Finished(m, id) && Session(m, id).activated then m.(sup := Do(m, Supervision.Interrupt(id)))
      else m.(sup := Do(m, Supervision.Cancel(id)), pc := ReplacingActive(id), active := None)
  }

  /** The wake branch once the devices are quiet. */
  function Promote(m: Loop, luck: Luck): Loop
    requires m.warm.Some? ==> Exists(m, m.warm.value)
  {
    if !m.native then m.(pc := AtSelect, active := Some(Legacy(false)))
    else if m.warm.None? then SpawnAndGreet(m, luck)
    else if Finished(m, m.warm.value) then m.(pc := JoiningStaleWarm(m.warm.value), warm := None)
    else Greet(m, m.sup, m.warm.value)
  }

  function OnTick(m: Loop, luck: Luck): Loop
    requires m.warm.Some? ==> Exists(m, m.warm.value)
  {
    if m.active.Some? && TurnFinished(m, m.active.value)
    then m.(pc := JoiningFinished(m.active.value), active := None)
    else Rotate(m, luck)
  }

  /** After the finished active turn was joined, a native one is followed by a fresh warm turn. */
  function ReplaceFinished(m: Loop, turn: Turn, luck: Luck): Loop {
    if turn.Legacy? || !m.native then m.(pc := Blinking)
    else if luck.preparable
    then m.(sup := Do(m, Supervision.Prepare), pc := Blinking, warm := Some(|m.sup.sessions|))
    else m.(pc := Blinking, warm := None)
  }

  function Rotate(m: Loop, luck: Luck): Loop
    requires m.warm.Some? ==> Exists(m, m.warm.value)
  {
    if luck.rotate && m.warm.Some?
    then m.(sup := Do(m, Supervision.Cancel(m.warm.value)), pc := Rotating(m.warm.value), warm := None)
    else Retire(m, luck)
  }

  function Retire(m: Loop, luck: Luck): Loop
    requires m.warm.Some? ==> Exists(m, m.warm.value)
  {
    if luck.tooOld && m.warm.Some?
    then m.(sup := Do(m, Supervision.Cancel(m.warm.value)), pc := Retiring(m.warm.value), warm := None)
    else JoinWarm(m, luck)
  }

  function JoinWarm(m: Loop, luck: Luck): Loop {
    if m.warm.Some? && Finished(m, m.warm.value) then m.(pc := JoiningWarm(m.warm.value), warm := None)
    else Respawn(m, luck)
  }

  function Respawn(m: Loop, luck: Luck): Loop {
    if m.warm.None? && m.active.None? && m.native && luck.respawnDue && luck.preparable
    then m.(sup := Do(m, Supervision.Prepare), pc := AtSelect, warm := Some(|m.sup.sessions|))
    else m.(pc := AtSelect)
  }

  function OnResume(m: Loop, luck: Luck): Loop
    requires m.warm.Some? ==> Exists(m, m.warm.value)
  {
    match m.pc
    case AtSelect => m
    case ReplacingActive(_) => m.(pc := Preparing)
    case Preparing => Promote(m, luck)
    case JoiningStaleWarm(_) => SpawnAndGreet(m, luck)
    case Greeting(id) => m.(pc := AtSelect, active := Some(Native(id)))
    case JoiningFinished(turn) => ReplaceFinished(m, turn, luck)
    case Blinking => Rotate(m, luck)
    case Rotating(_) => Retire(m, luck)
    case Retiring(_) => JoinWarm(m, luck)
    case JoiningWarm(_) => Respawn(m, luck)
  }

  /** The loop resumes from a join only when the joined task has ended. */
  predicate CanResume(m: Loop) {
    match m.pc
    case AtSelect => false
    case ReplacingActive(id) => Finished(m, id)
    case JoiningStaleWarm(id) => Finished(m, id)
    case JoiningFinished(turn) => TurnFinished(m, turn)
    case Rotating(id) => Finished(m, id)
    case Retiring(id) => Finished(m, id)
    case JoiningWarm(id) => Finished(m, id)
    case _ => true
  }

  predicate HandlesExist(m: Loop) {
    && (m.active.Some? && m.active.value.Native? ==> Exists(m, m.active.value.id))
    && (m.warm.Some? ==> Exists(m, m.warm.value))
  }

  predicate Enabled(m: Loop, e: Event) {
    HandlesExist(m) &&
    match e
    case Wake => m.pc.AtSelect?
    case Tick(_) => m.pc.AtSelect?
    case Resume(_) => CanResume(m)
    case LegacyEnds => m.active.Some? && m.active.value.Legacy?
    case Moves(task) => TaskStep(task) && Supervision.Enabled(m.sup, task)
  }

  function Step(m: Loop, e: Event): Loop
    requires Enabled(m, e)
  {
    match e
    case Wake => OnWake(m)
    case Tick(luck) => OnTick(m, luck)
    case Resume(luck) => OnResume(m, luck)
    case LegacyEnds => m.(active := Some(Legacy(true)))
    case Moves(task) => m.(sup := Do(m, task))
  }

  predicate Feasible(m: Loop, events: seq<Event>)
    decreases |events|
  {
    events == [] || (Enabled(m, events[0]) && Feasible(Step(m, events[0]), events[1..]))
  }

  function Run(m: Loop, events: seq<Event>): Loop
    requires Feasible(m, events)
    decreases |events|
  {
    if events == [] then m else Run(Step(m, events[0]), events[1..])
  }

  // ---- What every run keeps ------------------------------------------------

  function PcHolds(pc: Pc): Option<nat> {
    match pc
    case ReplacingActive(id) => Some(id)
    case JoiningStaleWarm(id) => Some(id)
    case Greeting(id) => Some(id)
    case JoiningFinished(Native(id)) => Some(id)
    case Rotating(id) => Some(id)
    case Retiring(id) => Some(id)
    case JoiningWarm(id) => Some(id)
    case _ => None
  }

  /** The one session the loop may have a live task for. */
  function Held(m: Loop): Option<nat> {
    if PcHolds(m.pc).Some? then PcHolds(m.pc)
    else if m.active.Some? && m.active.value.Native? then Some(m.active.value.id)
    else m.warm
  }

  ghost predicate PlacesOk(m: Loop) {
    && (m.active.Some? ==> m.warm.None? && m.pc.AtSelect?)
    && (PcHolds(m.pc).Some? || m.pc.JoiningFinished? ==> m.active.None? && m.warm.None?)
    && (Held(m).Some? ==> m.native && Exists(m, Held(m).value))
  }

  ghost predicate SessionOk(m: Loop, id: nat, x: Supervision.Session) {
    && (x.waiter.Finished? || Held(m) == Some(id))
    && x.waiter != Supervision.Returned(true)
    && !x.waiter.Dropped?
  }

  ghost predicate ActivationOk(m: Loop) {
    && (m.active.Some? && m.active.value.Native? && Exists(m, m.active.value.id) ==>
          Session(m, m.active.value.id).activated)
    && (m.pc.Greeting? && Exists(m, m.pc.id) ==> Session(m, m.pc.id).activated)
    && (m.warm.Some? && Exists(m, m.warm.value) ==>
          !Session(m, m.warm.value).activated && Session(m, m.warm.value).interrupts == 0)
    && (m.pc.Greeting? || (PcHolds(m.pc).Some? && Exists(m, PcHolds(m.pc).value) ==>
          Session(m, PcHolds(m.pc).value).cancelled || Finished(m, PcHolds(m.pc).value)))
  }

  ghost predicate Inv(m: Loop) {
    && Supervision.Inv(m.sup)
    && PlacesOk(m)
    && ActivationOk(m)
    && (forall id | 0 <= id < |m.sup.sessions| :: SessionOk(m, id, m.sup.sessions[id]))
  }

  /** A task moves: only the held session's task still can. */
  lemma MovesKeeps(m: Loop, task: Supervision.Event)
    requires Inv(m) && TaskStep(task) && Supervision.Enabled(m.sup, task)
    ensures Inv(m.(sup := Do(m, task)))
  {
    Supervision.StepKeeps(m.sup, task);
    assert SessionOk(m, task.id, m.sup.sessions[task.id]);
    assert Supervision.SessionOk(m.sup.slot, task.id, m.sup.sessions[task.id]);
    if task.Enter? {
      SlotIsFree(m, task.id);
    }
  }

  /** When a held session enters, the slot is free. */
  lemma SlotIsFree(m: Loop, id: nat)
    requires Inv(m) && id < |m.sup.sessions| && m.sup.sessions[id].waiter.Prepared?
    ensures m.sup.slot.None? && Supervision.Admits(m.sup)
  {
    assert SessionOk(m, id, m.sup.sessions[id]);
    forall j | 0 <= j < |m.sup.sessions| ensures m.sup.slot != Some(j) {
      assert SessionOk(m, j, m.sup.sessions[j]);
      assert Supervision.SessionOk(m.sup.slot, j, m.sup.sessions[j]);
    }
  }

  /** A new turn is prepared only when every earlier task has ended. */
  lemma PrepareKeeps(m: Loop, t: Loop)
    requires Inv(m) && m.native
    requires forall id | 0 <= id < |m.sup.sessions| :: Finished(m, id)
    requires t.native == m.native && t.active.None? && t.sup == Do(m, Supervision.Prepare)
    requires t.warm == Some(|m.sup.sessions|) && (t.pc.AtSelect? || t.pc.Blinking?)
    ensures Inv(t)
  {
    Supervision.StepKeeps(m.sup, Supervision.Prepare);
    forall id | 0 <= id < |t.sup.sessions| ensures SessionOk(t, id, t.sup.sessions[id]) {
      if id < |m.sup.sessions| {
        assert SessionOk(m, id, m.sup.sessions[id]);
        assert Finished(m, id);
      }
    }
  }

  lemma AllFinished(m: Loop)
    requires Inv(m) && (Held(m).Some? ==> Finished(m, Held(m).value))
    ensures forall id | 0 <= id < |m.sup.sessions| :: Finished(m, id)
  {
    forall id | 0 <= id < |m.sup.sessions| ensures Finished(m, id) {
      assert SessionOk(m, id, m.sup.sessions[id]);
    }
  }

  lemma PromoteKeeps(m: Loop, luck: Luck)
    requires Inv(m) && m.pc.Preparing?
    ensures Inv(Promote(m, luck))
  {
  }

  /** Whatever the loop was joining has ended. */
  ghost predicate PcFree(m: Loop) { PcHolds(m.pc).Some? ==> Finished(m, PcHolds(m.pc).value) }

  lemma RotateKeeps(m: Loop, luck: Luck)
    requires Inv(m) && PcFree(m)
    ensures Inv(Rotate(m, luck))
  {
  }

  lemma ResumeKeeps(m: Loop, luck: Luck)
    requires Inv(m) && CanResume(m)
    ensures Inv(OnResume(m, luck))
  {
    match m.pc
    case AtSelect =>
    case ReplacingActive(_) =>
    case Preparing => PromoteKeeps(m, luck);
    case JoiningStaleWarm(_) =>
    case Greeting(_) =>
    case JoiningFinished(turn) =>
      if turn.Native? && m.native && luck.preparable {
        PrepareKeeps(m, OnResume(m, luck));
      }
    case Blinking => RotateKeeps(m, luck);
    case Rotating(_) =>
    case Retiring(_) =>
    case JoiningWarm(_) =>
  }

  lemma StepKeeps(m: Loop, e: Event)
    requires Inv(m) && Enabled(m, e)
    ensures Inv(Step(m, e))
  {
    match e
    case Wake =>
    case Tick(luck) =>
      if !(m.active.Some? && TurnFinished(m, m.active.value)) {
        RotateKeeps(m, luck);
      }
    case Resume(luck) => ResumeKeeps(m, luck);
    case LegacyEnds =>
    case Moves(task) => MovesKeeps(m, task);
  }

  lemma {:induction false} RunKeeps(m: Loop, events: seq<Event>)
    requires Inv(m) && Feasible(m, events)
    ensures Inv(Run(m, events))
    decreases |events|
  {
    if events != [] {
      StepKeeps(m, events[0]);
      RunKeeps(Step(m, events[0]), events[1..]);
    }
  }

  ghost predicate Happens(native: bool, prepared: bool, events: seq<Event>, m: Loop) {
    Feasible(Start(native, prepared), events) && m == Run(Start(native, prepared), events)
  }

  /** `t` is `m` after the event. */
  ghost predicate Follows(m: Loop, e: Event, t: Loop) { Enabled(m, e) && t == Step(m, e) }

  // ---- The theorems --------------------------------------------------------

  /** The loop never holds a warm and an active turn together, and only one session's task is unfinished. */
  lemma NeverWarmAndActive(native: bool, prepared: bool, events: seq<Event>, m: Loop)
    requires Happens(native, prepared, events, m)
    ensures m.active.None? || m.warm.None?
    ensures forall i, j | 0 <= i < j < |m.sup.sessions| :: Finished(m, i) || Finished(m, j)
    ensures forall i | 0 <= i < |m.sup.sessions| && !Finished(m, i) :: Held(m) == Some(i)
  {
    RunKeeps(Start(native, prepared), events);
    forall i | 0 <= i < |m.sup.sessions| && !Finished(m, i) ensures Held(m) == Some(i) {
      assert SessionOk(m, i, m.sup.sessions[i]);
    }
  }

  lemma OnlyWhenFinished(m: Loop, e: Event, t: Loop)
    requires Inv(m) && Follows(m, e, t) && |t.sup.sessions| > |m.sup.sessions|
    ensures |t.sup.sessions| == |m.sup.sessions| + 1
    ensures forall id | 0 <= id < |m.sup.sessions| :: Finished(m, id)
  {
    AllFinished(m);
  }

  /** Every native task is joined before the next turn is prepared. */
  lemma JoinsBeforePreparing(native: bool, prepared: bool, events: seq<Event>, m: Loop, e: Event, t: Loop)
    requires Happens(native, prepared, events, m) && Follows(m, e, t)
    requires |t.sup.sessions| > |m.sup.sessions|
    ensures |t.sup.sessions| == |m.sup.sessions| + 1
    ensures forall id | 0 <= id < |m.sup.sessions| :: Finished(m, id) && m.sup.slot != Some(id)
  {
    RunKeeps(Start(native, prepared), events);
    OnlyWhenFinished(m, e, t);
    forall id | 0 <= id < |m.sup.sessions| ensures m.sup.slot != Some(id) {
      assert Finished(m, id);
      assert Supervision.SessionOk(m.sup.slot, id, m.sup.sessions[id]);
    }
  }

  /** The refusal of a second active session cannot happen from this loop. */
  lemma NeverAlreadyActive(native: bool, prepared: bool, events: seq<Event>, m: Loop)
    requires Happens(native, prepared, events, m)
    ensures forall x | x in m.sup.sessions :: x.waiter != Supervision.Returned(true)
    ensures forall id | 0 <= id < |m.sup.sessions| && m.sup.sessions[id].waiter.Prepared? :: Supervision.Admits(m.sup)
  {
    RunKeeps(Start(native, prepared), events);
    forall x | x in m.sup.sessions ensures x.waiter != Supervision.Returned(true) {
      var id :| 0 <= id < |m.sup.sessions| && m.sup.sessions[id] == x;
      assert SessionOk(m, id, x);
    }
    forall id | 0 <= id < |m.sup.sessions| && m.sup.sessions[id].waiter.Prepared?
      ensures Supervision.Admits(m.sup)
    {
      SlotIsFree(m, id);
    }
  }

  /**
   A wake word during an unfinished native conversation interrupts that conversation and
   changes nothing else; a warm turn is never activated or interrupted.
   */
  lemma WakeInterrupts(native: bool, prepared: bool, events: seq<Event>, m: Loop, t: Loop)
    requires Happens(native, prepared, events, m) && Follows(m, Wake, t)
    requires m.active.Some? && m.active.value.Native? && !TurnFinished(m, m.active.value)
    ensures Supervision.Follows(m.sup, Supervision.Interrupt(m.active.value.id), t.sup) && t == m.(sup := t.sup)
  {
    RunKeeps(Start(native, prepared), events);
  }

  /** The loop waits for a native task only when it has ended or its session was told to cancel. */
  lemma NeverWaitsUnasked(native: bool, prepared: bool, events: seq<Event>, m: Loop)
    requires Happens(native, prepared, events, m) && PcHolds(m.pc).Some? && !m.pc.Greeting?
    ensures Exists(m, PcHolds(m.pc).value)
    ensures Session(m, PcHolds(m.pc).value).cancelled || Finished(m, PcHolds(m.pc).value)
  {
    RunKeeps(Start(native, prepared), events);
  }

  lemma WarmTurnIsQuiet(native: bool, prepared: bool, events: seq<Event>, m: Loop)
    requires Happens(native, prepared, events, m) && m.warm.Some?
    ensures Exists(m, m.warm.value)
    ensures !Session(m, m.warm.value).activated && Session(m, m.warm.value).interrupts == 0
  {
    RunKeeps(Start(native, prepared), events);
  }
}
