/** What is played: accepted blocks are written, and finishing writes everything still queued. */
module Playing {
  import opened Options
  import opened Player

  /** Nobody stops or aborts the player, and no spawn or write fails. */
  predicate Smooth(events: seq<Event>) {
    forall e | e in events :: !e.Stop? && !e.Abort? && !(e.Poll? && e.io.Fails?)
  }

  /** The polls at which whatever the player waits for is done. */
  function Dones(events: seq<Event>): nat {
    if events == [] then 0 else Dones(events[1..]) + if events[0] == Poll(Done) then 1 else 0
  }

  /** From `s` to `t` blocks left the queue only by being written to this process. */
  ghost predicate OnlyWrote(s: State, t: State, process: nat) {
    && s.left <= t.left
    && forall k | |s.left| <= k < |t.left| ::
         t.left[k].Written? && t.left[k].process == process && t.left[k].generation == s.generation
  }

  lemma OnlyWroteTwice(s: State, t: State, u: State, process: nat)
    requires OnlyWrote(s, t, process) && OnlyWrote(t, u, process) && t.generation == s.generation
    ensures OnlyWrote(s, u, process)
  {
  }

  /** The accepted block with this number: it has left the queue, or it is in it. */
  function BlockAt(s: State, k: nat): Block
    requires k < |s.left| + |s.queue|
  {
    if k < |s.left| then s.left[k].block else s.queue[k - |s.left|]
  }

  /** First in, first out: what was accepted keeps its place and its flags. */
  ghost predicate Extends(s: State, t: State) {
    && |s.left| + |s.queue| <= |t.left| + |t.queue|
    && forall k | 0 <= k < |s.left| + |s.queue| :: BlockAt(t, k) == BlockAt(s, k)
  }

  lemma ClearExtends(s: State)
    ensures Extends(s, OnClear(s))
  {
  }

  lemma TakeExtends(s: State, fate: Fate, pc: Pc)
    requires s.queue != [] && fate.block == s.queue[0]
    ensures Extends(s, Take(s, fate, pc))
  {
  }

  lemma SpawnExtends(s: State, pc: Pc)
    requires s.queue != []
    ensures Extends(s, Begin(Spawned(s), pc))
  {
    TakeExtends(Spawned(s), Written(s.queue[0], s.spawned, s.generation), pc);
  }

  lemma TakingExtends(s: State, io: Io)
    requires Takes(s)
    ensures Extends(s, OnPoll(s, io))
  {
    if s.process.Some? {
      TakeExtends(s, Written(s.queue[0], s.process.value, s.generation), if s.pc.Draining? then DrainWriting else Writing);
    } else if s.pc.Draining? {
      TakeExtends(s, Unplayed(s.queue[0], s.generation), Pc.Draining);
    } else if MaySpawn(s) && !io.Fails? {
      SpawnExtends(s, Writing);
    } else {
      TakeExtends(s, Unplayed(s.queue[0], s.generation), Ended);
    }
  }

  lemma StepExtends(s: State, e: Event)
    ensures Extends(s, Step(s, e))
  {
    if e.Poll? && Takes(s) {
      TakingExtends(s, e.io);
    } else if e.Poll? && Looks(s) && s.clearPending {
      ClearExtends(s);
    } else {
      QueueOnlyGrows(s, e);
    }
  }

  lemma QueueOnlyGrows(s: State, e: Event)
    requires e.Poll? ==> !Takes(s) && !(Looks(s) && s.clearPending)
    ensures Step(s, e).left == s.left && s.queue <= Step(s, e).queue
  {
    if e.Poll? {
      QueueStays(s, e.io);
    }
  }

  lemma QueueStays(s: State, io: Io)
    requires !Takes(s) && !(Looks(s) && s.clearPending)
    ensures OnPoll(s, io).left == s.left && OnPoll(s, io).queue == s.queue
  {
  }

  lemma {:induction false} RunExtends(s: State, more: seq<Event>)
    ensures Extends(s, Run(s, more))
    decreases |more|
  {
    if more != [] {
      StepExtends(s, more[0]);
      RunExtends(Step(s, more[0]), more[1..]);
    }
  }

  // ---- Finishing -----------------------------------------------------------

  /** A drain was asked for and nothing is in its way: the process is there and no clear is unseen. */
  ghost predicate Draining(s: State, process: nat) {
    && s.control.Drain? && !s.clearPending && s.process == Some(process)
    && match s.pc
       case Ended => s.queue == []
       case Draining => true
       case DrainWriting => true
       case _ => s.controlPending
  }

  /** How many more finished polls the drain can take. */
  ghost function DrainWork(s: State): nat {
    2 * (|s.queue| + |s.checked|) +
    match s.pc
    case Ended => 0
    case Draining => 1
    case DrainWriting => 2
    case Stopping => 4
    case _ => 3
  }

  lemma DrainStep(s: State, e: Event, process: nat)
    requires Draining(s, process) && Smooth([e])
    ensures var t := Step(s, e);
            && Draining(t, process) && t.generation == s.generation && OnlyWrote(s, t, process)
            && DrainWork(t) <= DrainWork(s)
            && (e == Poll(Done) && !s.pc.Ended? ==> DrainWork(t) < DrainWork(s))
            && (s.pc.Ended? ==> t.pc.Ended?)
  {
    assert e in [e];
    if e.Poll? {
      DrainPoll(s, e.io, process);
    }
  }

  lemma DrainPoll(s: State, io: Io, process: nat)
    requires Draining(s, process) && !io.Fails?
    ensures var t := OnPoll(s, io);
            && Draining(t, process) && t.generation == s.generation && OnlyWrote(s, t, process)
            && DrainWork(t) <= DrainWork(s)
            && (io.Done? && !s.pc.Ended? ==> DrainWork(t) < DrainWork(s))
  {
  }

  lemma {:induction false} DrainRun(s: State, more: seq<Event>, process: nat)
    requires Draining(s, process) && Smooth(more)
    ensures var t := Run(s, more);
            && Draining(t, process) && OnlyWrote(s, t, process)
            && (s.pc.Ended? || Dones(more) >= DrainWork(s) ==> t.pc.Ended?)
    decreases |more|
  {
    if more != [] {
      assert more[0] in more && forall e | e in more[1..] :: e in more;
      var t := Step(s, more[0]);
      DrainStep(s, more[0], process);
      DrainRun(t, more[1..], process);
      OnlyWroteTwice(s, t, Run(t, more[1..]), process);
    }
  }

  /** Every block queued in `s` was written to the process, in order, and nothing is left. */
  ghost predicate PlayedOut(s: State, t: State, process: nat) {
    && t.queue == [] && |t.left| == t.accepted && |s.left| + |s.queue| <= |t.left|
    && OnlyWrote(s, t, process)
    && forall k | 0 <= k < |s.queue| :: t.left[|s.left| + k].block == s.queue[k]
  }

  /** The player is running and has a process, and no interrupt is unseen. */
  predicate CanDrain(s: State) {
    s.control.Running? && s.process.Some? && !s.clearPending && !s.pc.Ended?
  }

  lemma FinishDrains(s: State, more: seq<Event>)
    requires Inv(s) && ControlOk(s) && CanDrain(s) && Smooth(more)
    ensures var t := Run(Step(s, Finish), more);
            && OnlyWrote(s, t, s.process.value)
            && (Dones(more) >= 2 * (|s.queue| + |s.checked|) + 4 ==> t.pc.Ended?)
            && (t.pc.Ended? ==> t.queue == [])
  {
    DrainRun(Step(s, Finish), more, s.process.value);
  }

  lemma FinishKeepsPlaces(s: State, more: seq<Event>)
    requires Inv(s) && ControlOk(s) && CanDrain(s)
    ensures var t := Run(Step(s, Finish), more); Extends(s, t) && t.accepted == |t.left| + |t.queue|
  {
    StepKeeps(s, Finish);
    ControlKeeps(s, Finish);
    RunKeeps(Step(s, Finish), more);
    RunExtends(Step(s, Finish), more);
    StepExtends(s, Finish);
  }

  /**
   Finishing plays what is queued: with a process and no unseen clear, whatever else
   happens short of a stop, an abort or a failing write, the player only writes to that
   process; enough finished polls end it, and by then every block was written, in order.
   */
  lemma FinishPlaysTheQueue(restart: bool, events: seq<Event>, s: State, more: seq<Event>)
    requires s == Run(Start(restart), events) && CanDrain(s) && Smooth(more)
    ensures var t := Run(Step(s, Finish), more);
            && OnlyWrote(s, t, s.process.value)
            && (Dones(more) >= 2 * (|s.queue| + |s.checked|) + 4 ==> t.pc.Ended?)
            && (t.pc.Ended? ==> PlayedOut(s, t, s.process.value))
  {
    RunKeeps(Start(restart), events);
    FinishDrains(s, more);
    FinishKeepsPlaces(s, more);
    if Run(Step(s, Finish), more).pc.Ended? {
      PlacesArePlayed(s, Run(Step(s, Finish), more));
    }
  }

  /** With nothing left in the queue, what was in it has left it in order. */
  lemma PlacesArePlayed(s: State, t: State)
    requires Extends(s, t) && t.queue == []
    ensures |s.left| + |s.queue| <= |t.left|
    ensures forall k | 0 <= k < |s.queue| :: t.left[|s.left| + k].block == s.queue[k]
  {
    forall k | 0 <= k < |s.queue| ensures t.left[|s.left| + k].block == s.queue[k] {
      assert BlockAt(t, |s.left| + k) == BlockAt(s, |s.left| + k);
    }
  }

  // ---- Playing on ----------------------------------------------------------

  /** Smooth, and nobody interrupts, finishes or forbids a process. */
  predicate Undisturbed(events: seq<Event>) {
    Smooth(events) && forall e | e in events :: !e.Interrupt? && !e.Finish? && !e.CancelSetup?
  }

  /** The player takes what is queued: there is a process, or there may be one. */
  ghost predicate Playing(s: State) {
    && s.control.Running? && !s.clearPending && !s.controlPending
    && (s.pc.Selecting? || s.pc.Writing? || s.pc.Stopping?)
    && (s.process.Some? || MaySpawn(s))
  }

  /** Blocks left the queue only by being written, all to the process the player then has. */
  ghost predicate OnlyPlayed(s: State, t: State) {
    && (s.process.Some? ==> t.process == s.process)
    && (if t.process.Some? then OnlyWrote(s, t, t.process.value) else t.left == s.left)
  }

  /** How many more finished polls until that many blocks have left the queue. */
  ghost function PlayWork(s: State, target: nat): nat {
    if |s.left| >= target then 0 else 2 * (target - |s.left|) - (if s.pc.Selecting? then 1 else 0)
  }

  lemma PlayPoll(s: State, io: Io, target: nat)
    requires Playing(s) && !io.Fails? && target <= |s.left| + |s.queue|
    ensures var t := OnPoll(s, io);
            && Playing(t) && t.generation == s.generation && OnlyPlayed(s, t)
            && PlayWork(t, target) <= PlayWork(s, target)
            && (io.Done? && PlayWork(s, target) > 0 ==> PlayWork(t, target) < PlayWork(s, target))
  {
  }

  lemma PlayStep(s: State, e: Event, target: nat)
    requires Playing(s) && Undisturbed([e]) && target <= |s.left| + |s.queue|
    ensures var t := Step(s, e);
            && Playing(t) && t.generation == s.generation && OnlyPlayed(s, t)
            && PlayWork(t, target) <= PlayWork(s, target)
            && (e == Poll(Done) && PlayWork(s, target) > 0 ==> PlayWork(t, target) < PlayWork(s, target))
  {
    assert e in [e];
    if e.Poll? {
      PlayPoll(s, e.io, target);
    }
  }

  lemma {:induction false} PlayRun(s: State, more: seq<Event>, target: nat)
    requires Playing(s) && Undisturbed(more) && target <= |s.left| + |s.queue|
    ensures var t := Run(s, more);
            Playing(t) && OnlyPlayed(s, t) && (Dones(more) >= PlayWork(s, target) ==> |t.left| >= target)
    decreases |more|
  {
    if more != [] {
      assert more[0] in more && forall e | e in more[1..] :: e in more;
      var t := Step(s, more[0]);
      PlayStep(s, more[0], target);
      StepExtends(s, more[0]);
      PlayRun(t, more[1..], target);
      PlayedTwice(s, t, Run(t, more[1..]));
    }
  }

  lemma PlayedTwice(s: State, t: State, u: State)
    requires OnlyPlayed(s, t) && OnlyPlayed(t, u) && t.generation == s.generation
    ensures OnlyPlayed(s, u)
  {
    if t.process.Some? {
      OnlyWroteTwice(s, t, u, t.process.value);
    }
  }

  /**
   An undisturbed player writes what is queued: nothing is discarded or left out, and two
   finished polls for each queued block have written them all, in order, to one process.
   */
  lemma QueuedBlocksArePlayed(s: State, more: seq<Event>)
    requires Playing(s) && Undisturbed(more)
    ensures var t := Run(s, more);
            OnlyPlayed(s, t) &&
            (Dones(more) >= 2 * |s.queue| ==>
               && |t.left| >= |s.left| + |s.queue|
               && forall k | 0 <= k < |s.queue| :: t.left[|s.left| + k].block == s.queue[k])
  {
    var t := Run(s, more);
    PlayRun(s, more, |s.left| + |s.queue|);
    RunExtends(s, more);
    if Dones(more) >= 2 * |s.queue| {
      forall k | 0 <= k < |s.queue| ensures t.left[|s.left| + k].block == s.queue[k] {
        assert BlockAt(t, |s.left| + k) == BlockAt(s, |s.left| + k);
      }
    }
  }

  /** What `try_audio` answers, and that it queues its block exactly when it says it accepted it. */
  lemma AnswersOfTryAudio(restart: bool, events: seq<Event>, s: State)
    requires s == Run(Start(restart), events)
    ensures Verdicts(s).Accepted? <==> Accepting(events, false, true) && !s.pc.Ended? && |s.queue| < 40
    ensures Verdicts(s).Full? <==> Accepting(events, false, true) && !s.pc.Ended? && |s.queue| == 40
    ensures Verdicts(s).Suppressed? <==> s.control.Running? && !Accepting(events, false, true)
    ensures if Verdicts(s).Accepted? then
              |Step(s, TryAudio).queue| == |s.queue| + 1 && s.queue <= Step(s, TryAudio).queue
            else Step(s, TryAudio) == s
  {
    RunKeeps(Start(restart), events);
    AcceptingRun(Start(restart), events);
  }

  /** The second half of a split call queues its block unless the queue is full, drained or gone. */
  lemma SentIff(s: State, call: nat)
    requires call < |s.checked|
    ensures var t, gone := Step(s, SendAudio(call)), s.pc == Pc.Draining || s.pc == DrainWriting || s.pc == Ended;
            && |t.checked| == |s.checked| - 1 && s.queue <= t.queue
            && |t.queue| == |s.queue| + (if |s.queue| < 40 && !gone then 1 else 0)
  {
  }

  predicate RunsAfter(e: Event, running: bool) { running && !e.Finish? && !e.Stop? }

  predicate AcceptsAfter(e: Event, accepting: bool, running: bool) {
    if e.BeginResponse? && running then true else if e.Interrupt? && running then false else accepting
  }

  /** What came last while the player ran is a begin_response, not an interrupt; and nothing has ended it. */
  predicate Accepting(events: seq<Event>, accepting: bool, running: bool)
    decreases |events|
  {
    if events == [] then accepting && running
    else Accepting(events[1..], AcceptsAfter(events[0], accepting, running), RunsAfter(events[0], running))
  }

  lemma AcceptingPoll(s: State, io: Io)
    ensures OnPoll(s, io).accepting == s.accepting && OnPoll(s, io).control == s.control
  {
  }

  lemma AcceptingStep(s: State, e: Event)
    ensures Step(s, e).accepting == AcceptsAfter(e, s.accepting, s.control.Running?)
    ensures Step(s, e).control.Running? == RunsAfter(e, s.control.Running?)
  {
    if e.Poll? {
      AcceptingPoll(s, e.io);
    }
  }

  lemma {:induction false} AcceptingRun(s: State, events: seq<Event>)
    ensures Accepting(events, s.accepting, s.control.Running?) <==>
            Run(s, events).accepting && Run(s, events).control.Running?
    decreases |events|
  {
    if events != [] {
      AcceptingStep(s, events[0]);
      AcceptingRun(Step(s, events[0]), events[1..]);
    }
  }

  // ---- What an ended player leaves behind ----------------------------------

  /** Nothing stopped or aborted the player, refused it a process, or failed a write. */
  predicate Untroubled(events: seq<Event>) { Smooth(events) && CancelSetup !in events }

  ghost predicate Untouched(s: State) {
    && !s.setupCancelled && !s.control.Shutdown?
    && (!s.restart && s.process.None? ==> s.spawned == 0)
    && (s.control.Running? || s.controlPending || s.pc.Draining? || s.pc.DrainWriting? || s.pc.Ended?)
    && (s.pc.Draining? || s.pc.DrainWriting? ==> !s.control.Running?)
    && (s.pc.Ended? ==> s.queue == [] && !s.control.Running?)
  }

  lemma UntouchedPoll(s: State, io: Io)
    requires Untouched(s) && ControlOk(s) && !io.Fails?
    ensures Untouched(OnPoll(s, io))
  {
  }

  lemma UntouchedStep(s: State, e: Event)
    requires Untouched(s) && ControlOk(s) && Untroubled([e])
    ensures Untouched(Step(s, e))
  {
    assert e in [e];
    if e.Poll? {
      UntouchedPoll(s, e.io);
    }
  }

  lemma {:induction false} UntouchedRun(s: State, events: seq<Event>)
    requires Untouched(s) && ControlOk(s) && Untroubled(events)
    ensures Untouched(Run(s, events))
    decreases |events|
  {
    if events != [] {
      assert events[0] in events && forall e | e in events[1..] :: e in events;
      UntouchedStep(s, events[0]);
      ControlKeeps(s, events[0]);
      UntouchedRun(Step(s, events[0]), events[1..]);
    }
  }

  /** So an ended player has blocks left only if it was stopped, aborted, refused a process or failed. */
  lemma LeftoversMeanTrouble(restart: bool, events: seq<Event>)
    ensures var s := Run(Start(restart), events); s.pc.Ended? && s.queue != [] ==> !Untroubled(events)
  {
    if Untroubled(events) {
      UntouchedRun(Start(restart), events);
    }
  }

  // ---- Phases of the player ------------------------------------------------

  /** The player looks at its clears and control changes: it waits for something to do, or for a write. */
  predicate AtSelect(s: State) { s.pc == Selecting || s.pc == Writing }

  /**
   A clear comes first: whatever is queued is discarded, and a player that restarts drops
   its process and takes nothing before that has stopped.
   */
  lemma ClearComesFirst(s: State, io: Io)
    requires AtSelect(s) && s.clearPending
    ensures var t := Step(s, Poll(io));
            && !t.clearPending && t.queue == [] && |t.left| == |s.left| + |s.queue|
            && (forall k | |s.left| <= k < |t.left| :: t.left[k] == Cleared(s.queue[k - |s.left|], s.generation))
            && if s.restart && s.process.Some? then
                 && t.process.None? && t.pc == Stopping
                 && Step(t, Poll(Quiet)) == t && Step(t, Poll(Done)) == t.(pc := Selecting)
               else t.process == s.process && t.pc == Selecting
  {
  }

  /** A control change comes next: a finish starts the drain at once, a stop ends the player. */
  lemma ControlComesNext(s: State, io: Io)
    requires AtSelect(s) && !s.clearPending && s.controlPending
    ensures Step(s, Poll(io)) == s.(controlPending := false, pc := if s.control == Drain then Pc.Draining else Ended)
  {
  }

  /** Audio comes last: a process is spawned for it if it has none, where that is allowed and works. */
  lemma AudioComesLast(s: State, io: Io)
    requires s.pc == Selecting && !s.clearPending && !s.controlPending && s.queue != []
    ensures var t := Step(s, Poll(io));
            var may := (s.restart || s.spawned == 0) && s.control == Running && !s.setupCancelled && io != Fails;
            && t.queue == s.queue[1..] && |t.left| == |s.left| + 1 && s.left <= t.left
            && (t.spawned == s.spawned + 1 <==> s.process.None? && may)
            && if s.process.Some? || may
               then t.pc == Writing && t.left[|s.left|].Written? && t.process == Some(t.left[|s.left|].process)
               else t.pc == Ended && t.left[|s.left|].Unplayed? && t.process.None?
  {
  }

  /** A write is waited for; a failing one, or a failing one in the drain, ends the player. */
  lemma WritesAreAwaited(s: State)
    requires (s.pc == Writing && !s.clearPending && !s.controlPending) || s.pc == DrainWriting
    ensures Step(s, Poll(Quiet)) == s && Step(s, Poll(Fails)) == s.(pc := Ended)
    ensures Step(s, Poll(Done)) == s.(pc := if s.pc == Writing then Selecting else Pc.Draining)
  {
  }

  /** A drain takes block after block, leaves them out if there is no process, and then ends. */
  lemma DrainTakesAll(s: State, io: Io)
    requires s.pc == Pc.Draining
    ensures var t := Step(s, Poll(io));
            if s.queue == [] then t == s.(pc := Ended)
            else
              && t.queue == s.queue[1..] && |t.left| == |s.left| + 1 && t.left[|s.left|].block == s.queue[0]
              && (if s.process.Some? then t.pc == DrainWriting && t.left[|s.left|].Written?
                  else t.pc == Pc.Draining && t.left[|s.left|].Unplayed?)
  {
  }

  /** Nobody plays any more, and no process comes. */
  predicate Over(s: State) { s.pc == Ended }

  lemma EndedStays(s: State, e: Event)
    requires Over(s)
    ensures Over(Step(s, e)) && Step(s, e).left == s.left && Step(s, e).spawned == s.spawned
  {
  }

  lemma {:induction false} EndedIsFinal(s: State, more: seq<Event>)
    requires Over(s)
    ensures Over(Run(s, more)) && Run(s, more).left == s.left && Run(s, more).spawned == s.spawned
    decreases |more|
  {
    if more != [] {
      EndedStays(s, more[0]);
      EndedIsFinal(Step(s, more[0]), more[1..]);
    }
  }

  /** An abort ends the player for good, and once its set-up was cancelled no process is spawned. */
  lemma AbortIsFinal(s: State, more: seq<Event>)
    ensures Over(Run(Step(s, Abort), more)) && Run(Step(s, Abort), more).left == s.left
    ensures Run(Step(s, CancelSetup), more).spawned == s.spawned
  {
    EndedIsFinal(Step(s, Abort), more);
    NoSpawnAfterCancel(Step(s, CancelSetup), more);
  }

  lemma NoSpawnPoll(s: State, io: Io)
    requires s.setupCancelled
    ensures OnPoll(s, io).setupCancelled && OnPoll(s, io).spawned == s.spawned
  {
  }

  lemma {:induction false} NoSpawnAfterCancel(s: State, more: seq<Event>)
    requires s.setupCancelled
    ensures Run(s, more).spawned == s.spawned
    decreases |more|
  {
    if more != [] {
      if more[0].Poll? {
        NoSpawnPoll(s, more[0].io);
      }
      NoSpawnAfterCancel(Step(s, more[0]), more[1..]);
    }
  }
}
