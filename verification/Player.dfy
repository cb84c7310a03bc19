/**
 PCM playback: the handle that accepts, interrupts and finishes, and the player task.

 One step is one handle call or one poll segment of the player, `biased` order
 respected: a clear is seen before a control change, a control change before audio.
 `try_audio` runs on the decoder's task, beside the event loop: `TryAudio` is the whole
 call, `CheckAudio` and `SendAudio` its two halves with anything in between.
 */
module Player {
  import opened Options

  const Capacity: nat := 40

  datatype Control = Running | Drain | Shutdown

  /**
   An accepted block: its place among all accepted blocks, how many interrupts came
   before it, how many had come before the begin_response it was accepted under, and
   whether the player had yet to see the latest of them.
   */
  datatype Block = Block(index: nat, generation: nat, begunIn: nat, unseen: bool)

  datatype Pc = Selecting | Stopping | Writing | Draining | DrainWriting | Ended

  /**
   How a block left the queue, and after how many interrupts: the player began to write
   it to a process, a clear discarded it, or there was no process to play it.
   */
  datatype Fate =
    | Written(block: Block, process: nat, generation: nat)
    | Cleared(block: Block, generation: nat)
    | Unplayed(block: Block, generation: nat)

  datatype State = State(
    restart: bool,
    control: Control,
    controlPending: bool,
    accepting: bool,
    generation: nat,
    clearPending: bool,
    setupCancelled: bool,
    queue: seq<Block>,
    pc: Pc,
    process: Option<nat>,
    spawned: nat,
    accepted: nat,
    begunIn: nat,
    checked: seq<nat>,
    left: seq<Fate>)

  /**
   `restart` is `restart_on_clear`, set in production. `checked` holds, for each call between
   its halves, how many interrupts had come before the begin_response it found accepting.
   */
  function Start(restart: bool): State {
    State(restart, Running, false, false, 0, false, false, [], Selecting, None, 0, 0, 0, [], [])
  }

  datatype Io = Quiet | Done | Fails

  datatype Event =
    | TryAudio
    | CheckAudio
    | SendAudio(call: nat)
    | Interrupt
    | BeginResponse
    | Finish
    | Stop
    | CancelSetup
    | Poll(io: Io)
    | Abort

  datatype Verdict = Accepted | Suppressed | Full | Closed

  /** The answer of `try_audio`. */
  function Verdicts(s: State): Verdict {
    if !s.control.Running? then Closed
    else if !s.accepting then Suppressed
    else if s.pc.Ended? then Closed
    else if |s.queue| >= Capacity then Full
    else Accepted
  }

  function OnAudio(s: State): State {
    if Verdicts(s).Accepted? then
      s.(queue := s.queue + [Block(s.accepted, s.generation, s.begunIn, s.clearPending)], accepted := s.accepted + 1)
    else s
  }

  /** The first half of `try_audio`: it finds the player running and accepting. */
  function OnCheck(s: State): State {
    if s.control.Running? && s.accepting then s.(checked := s.checked + [s.begunIn]) else s
  }

  /** The receiver is there until the drain closes it or the player ends. */
  predicate Receives(pc: Pc) { !pc.Draining? && !pc.DrainWriting? && !pc.Ended? }

  /** The second half: the block goes into the queue, whatever has happened since the check. */
  function OnSend(s: State, call: nat): State
    requires call < |s.checked|
  {
    var rest := s.checked[..call] + s.checked[call + 1..];
    if Receives(s.pc) && |s.queue| < Capacity then
      s.(checked := rest, accepted := s.accepted + 1,
         queue := s.queue + [Block(s.accepted, s.generation, s.checked[call], s.clearPending)])
    else s.(checked := rest)
  }

  function OnInterrupt(s: State): State {
    if s.control.Running? then s.(accepting := false, generation := s.generation + 1, clearPending := true) else s
  }

  function OnBegin(s: State): State {
    if s.control.Running? then s.(accepting := true, begunIn := s.generation) else s
  }

  function OnFinish(s: State): State {
    if s.control.Running? then s.(control := Drain, controlPending := true) else s
  }

  function Discards(queue: seq<Block>, generation: nat): seq<Fate> {
    seq(|queue|, k requires 0 <= k < |queue| => Cleared(queue[k], generation))
  }

  /** The player sees a clear: queued blocks are discarded and a restarting player drops its process. */
  function OnClear(s: State): State {
    var stops := s.restart && s.process.Some?;
    s.(clearPending := false, queue := [], left := s.left + Discards(s.queue, s.generation),
       process := if stops then None else s.process, pc := if stops then Stopping else Selecting)
  }

  function Controlled(s: State): State {
    s.(controlPending := false, pc := if s.control.Drain? then Draining else Ended)
  }

  /** The first block leaves the queue. */
  function Take(s: State, fate: Fate, pc: Pc): State
    requires s.queue != []
  {
    s.(queue := s.queue[1..], pc := pc, left := s.left + [fate])
  }

  function Begin(s: State, pc: Pc): State
    requires s.queue != [] && s.process.Some?
  {
    Take(s, Written(s.queue[0], s.process.value, s.generation), pc)
  }

  predicate MaySpawn(s: State) {
    (s.spawned == 0 || s.restart) && s.control.Running? && !s.setupCancelled
  }

  function Spawned(s: State): State { s.(process := Some(s.spawned), spawned := s.spawned + 1) }

  /** A block is taken; without a process one is spawned, if that is still allowed and works. */
  function TakeAudio(s: State, spawns: bool): State
    requires s.queue != []
  {
    if s.process.Some? then Begin(s, Writing)
    else if MaySpawn(s) && spawns then Begin(Spawned(s), Writing)
    else Take(s, Unplayed(s.queue[0], s.generation), Ended)
  }

  function TakeDrain(s: State): State
    requires s.queue != []
  {
    if s.process.Some? then Begin(s, DrainWriting)
    else Take(s, Unplayed(s.queue[0], s.generation), Draining)
  }

  function OnPoll(s: State, io: Io): State {
    match s.pc
    case Selecting =>
      if s.clearPending then OnClear(s)
      else if s.controlPending then Controlled(s)
      else if s.queue != [] then TakeAudio(s, !io.Fails?)
      else s
    case Writing =>
      if s.clearPending then OnClear(s)
      else if s.controlPending then Controlled(s)
      else if io.Quiet? then s
      else s.(pc := if io.Done? then Selecting else Ended)
    case Stopping => if io.Quiet? then s else s.(pc := Selecting)
    case Draining => if s.queue != [] then TakeDrain(s) else s.(pc := Ended)
    case DrainWriting => if io.Quiet? then s else s.(pc := if io.Done? then Draining else Ended)
    case Ended => s
  }

  function Step(s: State, e: Event): State {
    match e
    case TryAudio => OnAudio(s)
    case CheckAudio => OnCheck(s)
    case SendAudio(call) => if call < |s.checked| then OnSend(s, call) else s
    case Interrupt => OnInterrupt(s)
    case BeginResponse => OnBegin(s)
    case Finish => OnFinish(s)
    case Stop => s.(control := Shutdown, controlPending := true)
    case CancelSetup => s.(setupCancelled := true)
    case Poll(io) => OnPoll(s, io)
    case Abort => s.(pc := Ended)
  }

  function Run(s: State, events: seq<Event>): State
    decreases |events|
  {
    if events == [] then s else Run(Step(s, events[0]), events[1..])
  }

  // ---- What every run keeps ------------------------------------------------

  /** While a clear is unseen every queued block is older or was accepted in spite of it; after, none is. */
  ghost predicate BlockOk(s: State, index: nat, b: Block) {
    && b.index == index
    && b.begunIn <= b.generation <= s.generation
    && (s.clearPending <==> b.unseen || b.generation < s.generation)
  }

  ghost predicate FateOk(s: State, index: nat, f: Fate) {
    && f.block.index == index
    && f.block.begunIn <= f.block.generation <= f.generation <= s.generation
    && (f.Cleared? <==> f.block.unseen || f.block.generation < f.generation)
    && (f.Written? ==> f.process < s.spawned)
    && (f.Written? && s.restart && s.process == Some(f.process) && !s.clearPending ==> f.generation == s.generation)
  }

  ghost predicate QueueOk(s: State) {
    && |s.queue| <= Capacity
    && forall k | 0 <= k < |s.queue| :: BlockOk(s, |s.left| + k, s.queue[k])
  }

  ghost predicate FatesOk(s: State) { forall k | 0 <= k < |s.left| :: FateOk(s, k, s.left[k]) }

  ghost predicate NeverMixed(s: State) {
    s.restart ==>
      forall j, k | 0 <= j < k < |s.left| && s.left[j].Written? && s.left[k].Written? ::
        s.left[j].process == s.left[k].process ==> s.left[j].generation == s.left[k].generation
  }

  ghost predicate Inv(s: State) {
    && QueueOk(s) && FatesOk(s) && NeverMixed(s)
    && s.accepted == |s.left| + |s.queue|
    && (s.accepting ==> s.begunIn == s.generation)
    && (forall k | 0 <= k < |s.checked| :: s.checked[k] <= s.generation)
    && (s.process.Some? ==> s.process.value < s.spawned)
    && (s.pc.Draining? || s.pc.DrainWriting? ==> !s.control.Running? && !s.clearPending)
  }

  lemma ClearKeeps(s: State)
    requires Inv(s) && s.clearPending
    ensures Inv(OnClear(s))
  {
    var t := OnClear(s);
    forall k | 0 <= k < |t.left| ensures FateOk(t, k, t.left[k]) {
      if k < |s.left| {
        assert FateOk(s, k, s.left[k]);
      } else {
        assert BlockOk(s, |s.left| + (k - |s.left|), s.queue[k - |s.left|]);
      }
    }
  }

  /** One more block in the queue; the calls still between their halves may change with it. */
  lemma QueuedKeeps(s: State, b: Block, checked: seq<nat>)
    requires Inv(s) && |s.queue| < Capacity
    requires b.index == s.accepted && b.generation == s.generation && b.begunIn <= s.generation
    requires b.unseen == s.clearPending
    requires forall k | 0 <= k < |checked| :: checked[k] <= s.generation
    ensures Inv(s.(queue := s.queue + [b], accepted := s.accepted + 1, checked := checked))
  {
    var t := s.(queue := s.queue + [b], accepted := s.accepted + 1, checked := checked);
    forall k | 0 <= k < |t.left| ensures FateOk(t, k, t.left[k]) {
      assert FateOk(s, k, s.left[k]);
    }
    forall k | 0 <= k < |t.queue| ensures BlockOk(t, |t.left| + k, t.queue[k]) {
      assert k < |s.queue| ==> BlockOk(s, |s.left| + k, s.queue[k]);
    }
  }

  lemma ForgottenKeeps(s: State, checked: seq<nat>)
    requires Inv(s) && forall k | 0 <= k < |checked| :: checked[k] <= s.generation
    ensures Inv(s.(checked := checked))
  {
    var t := s.(checked := checked);
    forall k | 0 <= k < |t.left| ensures FateOk(t, k, t.left[k]) {
      assert FateOk(s, k, s.left[k]);
    }
    forall k | 0 <= k < |t.queue| ensures BlockOk(t, |t.left| + k, t.queue[k]) {
      assert BlockOk(s, |s.left| + k, s.queue[k]);
    }
  }

  lemma SendKeeps(s: State, call: nat)
    requires Inv(s) && call < |s.checked|
    ensures Inv(OnSend(s, call))
  {
    var rest := s.checked[..call] + s.checked[call + 1..];
    if Receives(s.pc) && |s.queue| < Capacity {
      QueuedKeeps(s, Block(s.accepted, s.generation, s.checked[call], s.clearPending), rest);
    } else {
      ForgottenKeeps(s, rest);
    }
  }

  lemma AudioKeeps(s: State)
    requires Inv(s)
    ensures Inv(OnAudio(s)) && Inv(OnCheck(s))
  {
    if Verdicts(s).Accepted? {
      QueuedKeeps(s, Block(s.accepted, s.generation, s.begunIn, s.clearPending), s.checked);
    }
    if s.control.Running? && s.accepting {
      ForgottenKeeps(s, s.checked + [s.begunIn]);
    }
  }

  lemma InterruptKeeps(s: State)
    requires Inv(s)
    ensures Inv(OnInterrupt(s))
  {
    var t := OnInterrupt(s);
    forall k | 0 <= k < |t.left| ensures FateOk(t, k, t.left[k]) {
      assert FateOk(s, k, s.left[k]);
    }
    forall k | 0 <= k < |t.queue| ensures BlockOk(t, |t.left| + k, t.queue[k]) {
      assert BlockOk(s, |s.left| + k, s.queue[k]);
    }
  }

  /** The polls that take a block. */
  predicate Takes(s: State) {
    s.queue != [] && (s.pc.Draining? || (s.pc.Selecting? && !s.clearPending && !s.controlPending))
  }

  /** The first block leaves the queue with a fate that suits it. */
  lemma TakeKeeps(s: State, fate: Fate, pc: Pc)
    requires Inv(s) && s.queue != [] && !s.clearPending && !fate.Cleared?
    requires fate.block == s.queue[0] && fate.generation == s.generation
    requires fate.Written? ==> s.process == Some(fate.process)
    requires pc.Draining? || pc.DrainWriting? ==> s.pc.Draining?
    ensures Inv(Take(s, fate, pc))
  {
    var t := Take(s, fate, pc);
    assert BlockOk(s, |s.left|, s.queue[0]);
    forall k | 0 <= k < |t.left| ensures FateOk(t, k, t.left[k]) {
      assert k < |s.left| ==> FateOk(s, k, s.left[k]);
    }
    forall k | 0 <= k < |t.queue| ensures BlockOk(t, |t.left| + k, t.queue[k]) {
      assert BlockOk(s, |s.left| + (k + 1), s.queue[k + 1]);
    }
    forall j, k | 0 <= j < k < |t.left| && t.restart && t.left[j].Written? && t.left[k].Written?
      ensures t.left[j].process == t.left[k].process ==> t.left[j].generation == t.left[k].generation
    {
      assert FateOk(s, j, s.left[j]);
    }
  }

  lemma SpawnKeeps(s: State)
    requires Inv(s) && s.process.None?
    ensures Inv(Spawned(s))
  {
    var t := Spawned(s);
    forall k | 0 <= k < |t.left| ensures FateOk(t, k, t.left[k]) {
      assert FateOk(s, k, s.left[k]);
    }
    forall k | 0 <= k < |t.queue| ensures BlockOk(t, |t.left| + k, t.queue[k]) {
      assert BlockOk(s, |s.left| + k, s.queue[k]);
    }
  }

  lemma TakingKeeps(s: State, io: Io)
    requires Inv(s) && Takes(s)
    ensures Inv(OnPoll(s, io))
  {
    var pc := if s.pc.Draining? then DrainWriting else Writing;
    if s.process.Some? {
      TakeKeeps(s, Written(s.queue[0], s.process.value, s.generation), pc);
    } else if s.pc.Selecting? && MaySpawn(s) && !io.Fails? {
      SpawnKeeps(s);
      TakeKeeps(Spawned(s), Written(s.queue[0], s.spawned, s.generation), Writing);
    } else {
      TakeKeeps(s, Unplayed(s.queue[0], s.generation), if s.pc.Draining? then Draining else Ended);
    }
  }

  /** The polls that look at the `select!`'s first two arms. */
  predicate Looks(s: State) { s.pc.Selecting? || s.pc.Writing? }

  lemma OnlyMovesOn(s: State, io: Io)
    requires !Takes(s) && (Looks(s) ==> !s.clearPending && !s.controlPending)
    ensures OnPoll(s, io) == s.(pc := OnPoll(s, io).pc)
    ensures OnPoll(s, io).pc.Draining? || OnPoll(s, io).pc.DrainWriting? ==> s.pc.Draining? || s.pc.DrainWriting?
  {
  }

  lemma PollKeeps(s: State, io: Io)
    requires Inv(s) && ControlOk(s)
    ensures Inv(OnPoll(s, io))
  {
    if Takes(s) {
      TakingKeeps(s, io);
    } else if Looks(s) && s.clearPending {
      ClearKeeps(s);
    } else if Looks(s) && s.controlPending {
    } else {
      OnlyMovesOn(s, io);
    }
  }

  /** A pending control change is a drain or a shutdown. */
  ghost predicate ControlOk(s: State) { s.controlPending ==> !s.control.Running? }

  lemma ControlKeeps(s: State, e: Event)
    requires ControlOk(s)
    ensures ControlOk(Step(s, e)) && Step(s, e).restart == s.restart
  {
  }

  lemma StepKeeps(s: State, e: Event)
    requires Inv(s) && ControlOk(s)
    ensures Inv(Step(s, e))
  {
    match e
    case Poll(io) => PollKeeps(s, io);
    case TryAudio => AudioKeeps(s);
    case CheckAudio => AudioKeeps(s);
    case SendAudio(call) => if call < |s.checked| { SendKeeps(s, call); }
    case Interrupt => InterruptKeeps(s);
    case _ =>
  }

  lemma {:induction false} RunKeeps(s: State, events: seq<Event>)
    requires Inv(s) && ControlOk(s)
    ensures Inv(Run(s, events)) && ControlOk(Run(s, events)) && Run(s, events).restart == s.restart
    decreases |events|
  {
    if events != [] {
      StepKeeps(s, events[0]);
      ControlKeeps(s, events[0]);
      RunKeeps(Step(s, events[0]), events[1..]);
    }
  }

  // ---- The theorems --------------------------------------------------------

  /** An interrupt came between the check that found the player accepting and the send. */
  predicate Late(b: Block) { b.begunIn < b.generation }

  /** With nothing in between the two halves are the whole call. */
  lemma HalvesMakeTheCall(restart: bool, events: seq<Event>)
    ensures var s := Run(Start(restart), events);
            s.control.Running? && s.accepting ==>
              Step(Step(s, CheckAudio), SendAudio(|s.checked|)) == Step(s, TryAudio)
  {
    RunKeeps(Start(restart), events);
    var s := Run(Start(restart), events);
    var c := s.checked + [s.begunIn];
    assert c[..|s.checked|] + c[|s.checked| + 1..] == s.checked;
  }

  /** Every block so far was sent in the same segment in which it was checked. */
  ghost predicate Prompt(s: State) {
    && s.checked == []
    && (forall k | 0 <= k < |s.queue| :: !Late(s.queue[k]))
    && (forall k | 0 <= k < |s.left| :: !Late(s.left[k].block))
  }

  /** No call is split in its halves. */
  predicate Unsplit(events: seq<Event>) { CheckAudio !in events }

  /** What leaves the queue was in it. */
  lemma TakenPrompt(s: State, fate: Fate, pc: Pc)
    requires Prompt(s) && s.queue != [] && fate.block == s.queue[0]
    ensures Prompt(Take(s, fate, pc))
  {
  }

  lemma PollPrompt(s: State, io: Io)
    requires Prompt(s)
    ensures Prompt(OnPoll(s, io))
  {
    if Takes(s) {
      if s.process.Some? {
        TakenPrompt(s, Written(s.queue[0], s.process.value, s.generation),
                    if s.pc.Draining? then DrainWriting else Writing);
      } else if s.pc.Selecting? && MaySpawn(s) && !io.Fails? {
        TakenPrompt(Spawned(s), Written(s.queue[0], s.spawned, s.generation), Writing);
      } else {
        TakenPrompt(s, Unplayed(s.queue[0], s.generation), if s.pc.Draining? then Draining else Ended);
      }
    } else if Looks(s) && s.clearPending {
      assert Prompt(OnClear(s));
    } else if !(Looks(s) && s.controlPending) {
      OnlyMovesOn(s, io);
    }
  }

  lemma StaysPrompt(s: State, e: Event)
    requires Inv(s) && Prompt(s) && e != CheckAudio
    ensures Prompt(Step(s, e))
  {
    if e.Poll? {
      PollPrompt(s, e.io);
    }
  }

  lemma {:induction false} RunPrompt(s: State, events: seq<Event>)
    requires Inv(s) && ControlOk(s) && Prompt(s) && Unsplit(events)
    ensures Prompt(Run(s, events))
    decreases |events|
  {
    if events != [] {
      assert events[0] in events;
      StaysPrompt(s, events[0]);
      StepKeeps(s, events[0]);
      ControlKeeps(s, events[0]);
      RunPrompt(Step(s, events[0]), events[1..]);
    }
  }

  /**
   Every write the player began, drain included, was of a block accepted after a
   begin_response that followed the latest interrupt, as long as `try_audio` is one segment.
   */
  lemma WritesFollowBegin(restart: bool, events: seq<Event>)
    requires Unsplit(events)
    ensures forall f | f in Run(Start(restart), events).left && f.Written? ::
              f.block.generation == f.generation && f.block.begunIn == f.generation
  {
    RunKeeps(Start(restart), events);
    RunPrompt(Start(restart), events);
    var s := Run(Start(restart), events);
    forall f | f in s.left && f.Written? ensures f.block.generation == f.generation && f.block.begunIn == f.generation {
      var k :| 0 <= k < |s.left| && s.left[k] == f;
      assert FateOk(s, k, s.left[k]) && !Late(s.left[k].block);
    }
  }

  /**
   When anything may come between its halves, a block accepted before the latest interrupt
   is written exactly if that interrupt fell between its check and its send and the player
   had seen it by the time of the send; sent before the player saw it, it is discarded.
   */
  lemma StaleWriteIff(restart: bool, events: seq<Event>, f: Fate)
    requires f in Run(Start(restart), events).left && !f.Unplayed?
    ensures f.Written? && f.block.begunIn < f.generation <==>
            Late(f.block) && !f.block.unseen && f.block.generation == f.generation
    ensures f.Written? ==> f.block.generation == f.generation
  {
    RunKeeps(Start(restart), events);
    var s := Run(Start(restart), events);
    var k :| 0 <= k < |s.left| && s.left[k] == f;
    assert FateOk(s, k, s.left[k]);
  }

  ghost const SplitCall: seq<Event> := [BeginResponse, CheckAudio, Interrupt, Poll(Quiet), SendAudio(0), Poll(Done)]

  /** Such a write happens: checked, interrupted, the clear seen, sent, written. */
  lemma StaleWriteExists()
    ensures Run(Start(true), SplitCall).left == [Written(Block(0, 1, 0, false), 0, 1)]
  {
    var s2 := Step(Step(Start(true), BeginResponse), CheckAudio);
    assert s2.checked == [0];
    var s4 := Step(Step(s2, Interrupt), Poll(Quiet));
    SplitCallRuns(s2, s4);
    var s5 := Step(s4, SendAudio(0));
    assert s5.queue == [Block(0, 1, 0, false)] && s5.pc.Selecting?;
  }

  lemma SplitCallRuns(s2: State, s4: State)
    requires s2 == Step(Step(Start(true), BeginResponse), CheckAudio)
    requires s4 == Step(Step(s2, Interrupt), Poll(Quiet))
    ensures Run(Start(true), SplitCall) == Step(Step(s4, SendAudio(0)), Poll(Done))
  {
    RunTwo(Start(true), SplitCall);
    RunTwo(s2, SplitCall[2..]);
    RunTwo(s4, SplitCall[4..]);
  }

  lemma RunTwo(s: State, events: seq<Event>)
    requires |events| >= 2
    ensures Run(s, events) == Run(Step(Step(s, events[0]), events[1]), events[2..])
  {
    assert events[1..][1..] == events[2..];
  }

  /**
   Every accepted block is accounted for exactly once and in order: those that left the
   queue, each by one fate, are the first ones accepted, and those still queued the rest.
   */
  lemma EveryBlockAccountedFor(restart: bool, events: seq<Event>)
    ensures var s := Run(Start(restart), events);
            && s.accepted == |s.left| + |s.queue|
            && (forall k | 0 <= k < |s.left| :: s.left[k].block.index == k)
            && (forall k | 0 <= k < |s.queue| :: s.queue[k].index == |s.left| + k)
            && |s.queue| <= Capacity
  {
    RunKeeps(Start(restart), events);
    var s := Run(Start(restart), events);
    forall k | 0 <= k < |s.left| ensures s.left[k].block.index == k {
      assert FateOk(s, k, s.left[k]);
    }
    forall k | 0 <= k < |s.queue| ensures s.queue[k].index == |s.left| + k {
      assert BlockOk(s, |s.left| + k, s.queue[k]);
    }
  }

  /**
   A block that leaves the queue was discarded by a clear exactly if it was accepted
   before the latest interrupt or before the player had seen it. So of the blocks of the
   current generation a clear takes exactly those accepted while it was still unseen.
   */
  lemma ClearedIff(restart: bool, events: seq<Event>, f: Fate)
    requires f in Run(Start(restart), events).left
    ensures f.Cleared? <==> f.block.unseen || f.block.generation < f.generation
    ensures f.block.generation == f.generation ==> (f.Cleared? <==> f.block.unseen)
  {
    RunKeeps(Start(restart), events);
    var s := Run(Start(restart), events);
    var k :| 0 <= k < |s.left| && s.left[k] == f;
    assert FateOk(s, k, s.left[k]);
  }

  /** A block accepted under the new response is thrown away by the interrupt before it. */
  lemma OlderInterruptDiscards()
    ensures var s := Run(Start(true), [Interrupt, BeginResponse, TryAudio, Poll(Quiet)]);
            s.left == [Cleared(Block(0, 1, 1, true), 1)] && s.accepting && s.generation == 1
  {
    var s1 := Step(Start(true), Interrupt);
    var s2 := Step(Step(s1, BeginResponse), TryAudio);
    assert s2.queue == [Block(0, 1, 1, true)];
    assert Run(s1, [BeginResponse, TryAudio, Poll(Quiet)]) == Run(s2, [Poll(Quiet)]);
  }

  /** In production no process receives blocks sent on both sides of an interrupt, drain included. */
  lemma ProcessesNeverMix(events: seq<Event>, v: Fate, w: Fate)
    requires v in Run(Start(true), events).left && w in Run(Start(true), events).left
    requires v.Written? && w.Written? && v.process == w.process
    ensures v.block.generation == w.block.generation
  {
    StaleWriteIff(true, events, v);
    StaleWriteIff(true, events, w);
    RunKeeps(Start(true), events);
  }

  /** `t` has written nothing that `s` had not. */
  ghost predicate WritesNothingNew(s: State, t: State) {
    s.left <= t.left && forall k | |s.left| <= k < |t.left| :: !t.left[k].Written?
  }

  /** A stop has been asked for, or has taken effect, and no drain is under way. */
  predicate Stopped(s: State) {
    s.control.Shutdown? && (s.pc.Ended? || (s.controlPending && !s.pc.Draining? && !s.pc.DrainWriting?))
  }

  lemma StoppedPoll(s: State, io: Io)
    requires Stopped(s)
    ensures Stopped(OnPoll(s, io)) && WritesNothingNew(s, OnPoll(s, io))
  {
  }

  lemma StoppedStep(s: State, e: Event)
    requires Stopped(s)
    ensures Stopped(Step(s, e)) && WritesNothingNew(s, Step(s, e))
  {
    if e.Poll? {
      StoppedPoll(s, e.io);
    }
  }

  lemma {:induction false} StoppedIsSilent(s: State, more: seq<Event>)
    requires Stopped(s)
    ensures WritesNothingNew(s, Run(s, more))
    decreases |more|
  {
    if more != [] {
      StoppedStep(s, more[0]);
      StoppedIsSilent(Step(s, more[0]), more[1..]);
    }
  }

  /** From a stop on, unless the player was already draining, nothing more is written. */
  lemma NothingWrittenAfterStop(restart: bool, events: seq<Event>, more: seq<Event>)
    ensures var s := Run(Start(restart), events);
            !s.pc.Draining? && !s.pc.DrainWriting? ==> WritesNothingNew(s, Run(Step(s, Stop), more))
  {
    var s := Run(Start(restart), events);
    if !s.pc.Draining? && !s.pc.DrainWriting? {
      StoppedIsSilent(Step(s, Stop), more);
    }
  }

  ghost const BeforeInterrupt: seq<Event> := [BeginResponse, TryAudio, Poll(Done)]
  ghost const AfterInterrupt: seq<Event> := [Interrupt, Poll(Quiet), BeginResponse, TryAudio, Poll(Done)]

  /** Restarting on a clear is what prevents it: without, one process gets both sides. */
  lemma KeptProcessMixes()
    ensures Run(Start(false), BeforeInterrupt + AfterInterrupt).left ==
            [Written(Block(0, 0, 0, false), 0, 0), Written(Block(1, 1, 1, false), 0, 1)]
  {
    var s3 := State(false, Running, false, true, 0, false, false, [], Writing, Some(0), 1, 1, 0, [],
                    [Written(Block(0, 0, 0, false), 0, 0)]);
    assert Run(Start(false), BeforeInterrupt) == s3 by {
      assert Run(OnAudio(OnBegin(Start(false))), [Poll(Done)]) == s3;
    }
    var s4 := s3.(accepting := false, generation := 1, clearPending := true);
    assert Step(s3, Interrupt) == s4;
    var s5 := s3.(accepting := false, generation := 1, pc := Selecting);
    assert Step(s4, Poll(Quiet)) == s5;
    var s6 := Step(Step(s5, BeginResponse), TryAudio);
    assert s6.queue == [Block(1, 1, 1, false)];
    assert Run(s5, [BeginResponse, TryAudio, Poll(Done)]) == Run(s6, [Poll(Done)]);
    RunAppend(Start(false), BeforeInterrupt, AfterInterrupt);
  }

  /** In a run one process got blocks from both sides of an interrupt. */
  ghost predicate Mixed(s: State) {
    exists v, w | v in s.left && w in s.left && v.Written? && w.Written? && v.process == w.process ::
      v.block.generation != w.block.generation
  }

  lemma NeverMixesIff(restart: bool)
    ensures (forall events :: !Mixed(Run(Start(restart), events))) <==> restart
  {
    if restart {
      forall events ensures !Mixed(Run(Start(restart), events)) {
        forall v, w | v in Run(Start(true), events).left && w in Run(Start(true), events).left &&
                      v.Written? && w.Written? && v.process == w.process
          ensures v.block.generation == w.block.generation
        {
          ProcessesNeverMix(events, v, w);
        }
      }
    } else {
      KeptProcessMixes();
      var left := Run(Start(false), BeforeInterrupt + AfterInterrupt).left;
      assert left[0] in left && left[1] in left;
      assert Mixed(Run(Start(false), BeforeInterrupt + AfterInterrupt));
    }
  }

  lemma {:induction false} RunAppend(s: State, first: seq<Event>, rest: seq<Event>)
    ensures Run(s, first + rest) == Run(Run(s, first), rest)
    decreases |first|
  {
    if first == [] {
      assert first + rest == rest;
    } else {
      assert (first + rest)[0] == first[0];
      assert (first + rest)[1..] == first[1..] + rest;
      RunAppend(Step(s, first[0]), first[1..], rest);
    }
  }
}
