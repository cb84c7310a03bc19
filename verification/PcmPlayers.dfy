/**
 The player handle and `run_player` as the source writes them: shared flags, a bounded
 queue and one process at a time, changed in place. Each method makes exactly one step
 of `Player`.
 */
module PcmPlayers {
  import opened Options
  import opened Player

  class PcmPlayer {
    const restart: bool
    var control: Control
    var controlPending: bool
    var accepting: bool
    var generation: nat
    var clearPending: bool
    var setupCancelled: bool
    var queue: seq<Block>
    var pc: Pc
    var process: Option<nat>
    var spawned: nat
    var accepted: nat
    var begunIn: nat
    var checked: seq<nat>
    ghost var left: seq<Fate>

    ghost function View(): State
      reads this
    {
      State(restart, control, controlPending, accepting, generation, clearPending, setupCancelled, queue, pc,
            process, spawned, accepted, begunIn, checked, left)
    }

    constructor (restart: bool)
      ensures View() == Start(restart)
    {
      this.restart, control, controlPending, accepting, generation := restart, Running, false, false, 0;
      clearPending, setupCancelled, queue, pc, process, spawned := false, false, [], Selecting, None, 0;
      accepted, begunIn, checked, left := 0, 0, [], [];
    }

    method TryAudio() returns (verdict: Verdict)
      modifies this`queue, this`accepted
      ensures verdict == Verdicts(old(View())) && View() == OnAudio(old(View()))
    {
      if control != Running {
        return Closed;
      }
      if !accepting {
        return Suppressed;
      }
      if pc == Ended {
        return Closed;
      }
      if |queue| >= Capacity {
        return Full;
      }
      queue := queue + [Block(accepted, generation, begunIn, clearPending)];
      accepted := accepted + 1;
      return Accepted;
    }

    /** `try_audio` up to where it has read both flags. */
    method Check()
      modifies this`checked
      ensures View() == OnCheck(old(View()))
    {
      if control == Running && accepting {
        checked := checked + [begunIn];
      }
    }

    /** `try_audio` from its `try_send` on. */
    method Send(call: nat)
      requires call < |checked|
      modifies this`checked, this`queue, this`accepted
      ensures View() == OnSend(old(View()), call)
    {
      var began := checked[call];
      checked := checked[..call] + checked[call + 1..];
      if Receives(pc) && |queue| < Capacity {
        queue := queue + [Block(accepted, generation, began, clearPending)];
        accepted := accepted + 1;
      }
    }

    method InterruptPlayback()
      modifies this`accepting, this`generation, this`clearPending
      ensures View() == OnInterrupt(old(View()))
    {
      if control == Running {
        accepting := false;
        generation := generation + 1;
        clearPending := true;
      }
    }

    method BeginResponse()
      modifies this`accepting, this`begunIn
      ensures View() == OnBegin(old(View()))
    {
      if control == Running {
        accepting := true;
        begunIn := generation;
      }
    }

    method Finish()
      modifies this`control, this`controlPending
      ensures View() == OnFinish(old(View()))
    {
      if control == Running {
        control := Drain;
        controlPending := true;
      }
    }

    /** `discard_pending_pcm`. */
    method DiscardPending() returns (discarded: nat)
      modifies this`queue
      ensures queue == [] && discarded == |old(queue)|
    {
      discarded := 0;
      while queue != []
        invariant discarded + |queue| == |old(queue)|
        decreases |queue|
      {
        queue := queue[1..];
        discarded := discarded + 1;
      }
    }

    /** A clear was seen, by either `select!`. */
    method Clear()
      modifies this`clearPending, this`queue, this`process, this`pc, this`left
      ensures View() == OnClear(old(View()))
    {
      left := left + Discards(queue, generation);
      clearPending := false;
      var _ := DiscardPending();
      pc := Selecting;
      if restart && process.Some? {
        process := None;
        pc := Stopping;
      }
    }

    method ReadControl()
      modifies this`controlPending, this`pc
      ensures View() == Controlled(old(View()))
    {
      controlPending := false;
      pc := if control.Drain? then Draining else Ended;
    }

    method TakeBlock(ghost fate: Fate, pc: Pc)
      requires queue != []
      modifies this`queue, this`pc, this`left
      ensures View() == Take(old(View()), fate, pc)
    {
      queue := queue[1..];
      this.pc := pc;
      left := left + [fate];
    }

    /** `construct_player_if_running`, then the write. */
    method PlayNext(spawns: bool)
      requires queue != []
      modifies this
      ensures View() == TakeAudio(old(View()), spawns)
    {
      if process.None? {
        if (spawned != 0 && !restart) || control != Running || setupCancelled || !spawns {
          TakeBlock(Unplayed(queue[0], generation), Ended);
          return;
        }
        process := Some(spawned);
        spawned := spawned + 1;
      }
      TakeBlock(Written(queue[0], process.value, generation), Writing);
    }

    method Poll(io: Io)
      modifies this
      ensures View() == OnPoll(old(View()), io)
    {
      match pc {
        case Selecting =>
          if clearPending {
            Clear();
          } else if controlPending {
            ReadControl();
          } else if queue != [] {
            PlayNext(!io.Fails?);
          }
        case Writing =>
          if clearPending {
            Clear();
          } else if controlPending {
            ReadControl();
          } else if !io.Quiet? {
            pc := if io.Done? then Selecting else Ended;
          }
        case Stopping =>
          if !io.Quiet? {
            pc := Selecting;
          }
        case Draining =>
          if queue == [] {
            pc := Ended;
          } else if process.Some? {
            TakeBlock(Written(queue[0], process.value, generation), DrainWriting);
          } else {
            TakeBlock(Unplayed(queue[0], generation), Draining);
          }
        case DrainWriting =>
          if !io.Quiet? {
            pc := if io.Done? then Draining else Ended;
          }
        case Ended =>
      }
    }

    method Handle(e: Event)
      modifies this
      ensures View() == Step(old(View()), e)
    {
      match e {
        case TryAudio => var _ := TryAudio();
        case CheckAudio => Check();
        case SendAudio(call) =>
          if call < |checked| {
            Send(call);
          }
        case Interrupt => InterruptPlayback();
        case BeginResponse => BeginResponse();
        case Finish => Finish();
        case Stop =>
          control := Shutdown;
          controlPending := true;
        case CancelSetup => setupCancelled := true;
        case Poll(io) => Poll(io);
        case Abort => pc := Ended;
      }
    }

    /** Handle calls and polls in any order: exactly the model's run. */
    method RunEvents(events: seq<Event>)
      modifies this
      ensures View() == Run(old(View()), events)
    {
      var i := 0;
      assert events[0..] == events;
      while i < |events|
        invariant i <= |events|
        invariant Run(View(), events[i..]) == Run(old(View()), events)
      {
        assert events[i..][1..] == events[i + 1..];
        Handle(events[i]);
        i := i + 1;
      }
    }
  }
}
