/**
 The buffer side of `run_opus_writer`: chunks are upsampled into a bounded buffer, a
 ticker takes one frame at a time, and what the buffer cannot hold is dropped oldest
 first. Encoding a frame and writing it to the track may fail and end the writer.
 */
module OpusWriters {
  import opened Options
  import opened Chunks
  import opened Upsampler

  const FrameSamples: nat := 960
  const MaxBuffered: nat := 9600

  datatype Removal = Sent(samples: seq<I16>) | Dropped(samples: seq<I16>)

  /** `input` and `removed` record what came in and what left, for the theorems. */
  datatype Writer = Writer(
    buffer: seq<I16>,
    previous: Option<I16>,
    pcmOpen: bool,
    stopped: bool,
    input: seq<I16>,
    removed: seq<Removal>,
    frames: seq<seq<I16>>)

  function Start(): Writer { Writer([], None, true, false, [], [], []) }

  datatype Event = Chunk(pcm: Bytes) | EndOfPcm | Tick(written: bool) | Cancel

  function Trimmed(w: Writer): Writer {
    if |w.buffer| <= MaxBuffered then w
    else
      var stale := |w.buffer| - MaxBuffered;
      w.(buffer := w.buffer[stale..], removed := w.removed + [Dropped(w.buffer[..stale])])
  }

  function OnChunk(w: Writer, pcm: Bytes): Writer {
    if |pcm| % 2 != 0 then w.(stopped := true)
    else
      var s := Enqueue(Stream(w.buffer, w.previous), pcm);
      Trimmed(w.(buffer := s.output, previous := s.previous, input := w.input + Samples(pcm)))
  }

  function OnEnd(w: Writer): Writer {
    w.(buffer := w.buffer + Flushed(w.previous), previous := None, pcmOpen := false)
  }

  function Min(a: nat, b: nat): nat { if a <= b then a else b }

  /** What a tick takes is sent even if the write then fails; a short frame is padded with silence. */
  function OnTick(w: Writer, written: bool): Writer {
    var n := Min(|w.buffer|, FrameSamples);
    w.(buffer := w.buffer[n..], stopped := !written, removed := w.removed + [Sent(w.buffer[..n])],
       frames := w.frames + [w.buffer[..n] + seq(FrameSamples - n, _ => 0)])
  }

  predicate Enabled(w: Writer, e: Event) {
    !w.stopped && (e.Chunk? || e.EndOfPcm? ==> w.pcmOpen)
  }

  function Step(w: Writer, e: Event): Writer {
    match e
    case Chunk(pcm) => OnChunk(w, pcm)
    case EndOfPcm => OnEnd(w)
    case Tick(written) => OnTick(w, written)
    case Cancel => w.(stopped := true)
  }

  predicate Feasible(w: Writer, events: seq<Event>)
    decreases |events|
  {
    events == [] || (Enabled(w, events[0]) && Feasible(Step(w, events[0]), events[1..]))
  }

  function Run(w: Writer, events: seq<Event>): Writer
    requires Feasible(w, events)
    decreases |events|
  {
    if events == [] then w else Run(Step(w, events[0]), events[1..])
  }

  /** Everything removed, in order. */
  function Gone(removed: seq<Removal>): seq<I16> {
    if removed == [] then [] else Gone(removed[..|removed| - 1]) + removed[|removed| - 1].samples
  }

  /** One frame per removal that was sent, padded with silence. */
  function FramesOf(removed: seq<Removal>): seq<seq<I16>> {
    if removed == [] then []
    else FramesOf(removed[..|removed| - 1]) + FrameOf(removed[|removed| - 1])
  }

  function FrameOf(r: Removal): seq<seq<I16>> {
    if r.Dropped? || |r.samples| > FrameSamples then []
    else [r.samples + seq(FrameSamples - |r.samples|, _ => 0)]
  }

  /** Everything produced: the input upsampled, the last sample held only once the input ended. */
  function Produced(w: Writer): seq<I16> { if w.pcmOpen then Emitted(None, w.input) else Upsampled(w.input) }

  ghost predicate Inv(w: Writer) {
    && Gone(w.removed) + w.buffer == Produced(w)
    && w.frames == FramesOf(w.removed)
    && w.previous == (if w.pcmOpen then LastOf(None, w.input) else None)
    && |w.buffer| <= (if w.pcmOpen then MaxBuffered else MaxBuffered + 3)
  }

  lemma EnqueueKeeps(w: Writer, pcm: Bytes)
    requires Inv(w) && w.pcmOpen
    ensures var s := Enqueue(Stream(w.buffer, w.previous), pcm);
            && Gone(w.removed) + s.output == Emitted(None, w.input + Samples(pcm))
            && s.previous == LastOf(None, w.input + Samples(pcm))
  {
    var x := Samples(pcm);
    EmittedSplits(None, w.input, x);
    Associates(Gone(w.removed), w.buffer, Emitted(w.previous, x));
  }

  lemma TrimKeeps(w: Writer, buffer: seq<I16>)
    requires Gone(w.removed) + buffer == Produced(w) && w.frames == FramesOf(w.removed)
    requires w.pcmOpen && w.previous == LastOf(None, w.input)
    ensures Inv(Trimmed(w.(buffer := buffer)))
  {
    if |buffer| > MaxBuffered {
      var stale := |buffer| - MaxBuffered;
      assert buffer == buffer[..stale] + buffer[stale..];
      Associates(Gone(w.removed), buffer[..stale], buffer[stale..]);
    }
  }

  lemma ChunkKeeps(w: Writer, pcm: Bytes)
    requires Inv(w) && w.pcmOpen
    ensures Inv(OnChunk(w, pcm))
  {
    if |pcm| % 2 == 0 {
      EnqueueKeeps(w, pcm);
      var s := Enqueue(Stream(w.buffer, w.previous), pcm);
      TrimKeeps(w.(previous := s.previous, input := w.input + Samples(pcm)), s.output);
    }
  }

  lemma StepKeeps(w: Writer, e: Event)
    requires Inv(w) && Enabled(w, e)
    ensures Inv(Step(w, e))
  {
    match e
    case Chunk(pcm) => ChunkKeeps(w, pcm);
    case EndOfPcm => Associates(Gone(w.removed), w.buffer, Flushed(w.previous));
    case Tick(written) =>
    case Cancel =>
  }

  lemma {:induction false} RunKeeps(w: Writer, events: seq<Event>)
    requires Inv(w) && Feasible(w, events)
    ensures Inv(Run(w, events))
    decreases |events|
  {
    if events != [] {
      StepKeeps(w, events[0]);
      RunKeeps(Step(w, events[0]), events[1..]);
    }
  }

  /**
   Over every run: what was sent and dropped, in order, followed by what is buffered, is
   exactly what upsampling the accepted input produced; each frame is what was sent with
   one tick, padded; the buffer never exceeds its
   bound after a chunk, nor the bound and one held sample after the flush.
   */
  lemma NothingIsLost(events: seq<Event>)
    requires Feasible(Start(), events)
    ensures var w := Run(Start(), events);
            && Gone(w.removed) + w.buffer == Produced(w)
            && w.frames == FramesOf(w.removed)
            && |w.buffer| <= MaxBuffered + 3
            && (w.pcmOpen ==> |w.buffer| <= MaxBuffered)
  {
    RunKeeps(Start(), events);
  }

  ghost predicate Happens(events: seq<Event>, w: Writer) { Feasible(Start(), events) && w == Run(Start(), events) }

  /** Samples produced that were neither sent nor dropped. */
  ghost function Waiting(w: Writer, gone: nat): int { |Produced(w)| - gone }

  /** `frame` is the samples, then silence up to twenty milliseconds at 48 kHz. */
  ghost predicate PaddedTo960(frame: seq<I16>, samples: seq<I16>) {
    && |frame| == 960 && samples <= frame
    && forall j | |samples| <= j < 960 :: frame[j] == 0
  }

  /**
   Each tick sends one frame: the oldest 960 samples still waiting, or all of them and
   silence. A failed write ends the writer, and nothing else does.
   */
  lemma TickSendsOldest(events: seq<Event>, w: Writer, written: bool)
    requires Happens(events, w) && !w.stopped
    ensures var t, gone := Step(w, Tick(written)), |Gone(w.removed)|;
            var k := if Waiting(w, gone) < 960 then Waiting(w, gone) else 960;
            && 0 <= k && gone + k <= |Produced(w)|
            && (exists frame :: t.frames == w.frames + [frame] && PaddedTo960(frame, Produced(w)[gone..gone + k]))
            && Gone(t.removed) == Produced(w)[..gone + k]
            && (t.stopped <==> !written)
  {
    RunKeeps(Start(), events);
    var t, gone := Step(w, Tick(written)), Gone(w.removed);
    var k := Min(|w.buffer|, FrameSamples);
    assert Produced(w)[|gone|..|gone| + k] == w.buffer[..k];
    assert PaddedTo960(t.frames[|w.frames|], w.buffer[..k]);
    assert Gone(t.removed) == gone + w.buffer[..k];
    assert t.frames == w.frames + [t.frames[|w.frames|]];
  }

  /**
   A chunk drops exactly what exceeds 9600 waiting samples, oldest first; one that cuts a
   sample in half ends the writer and is not taken.
   */
  lemma ChunkDropsExcess(events: seq<Event>, w: Writer, pcm: Bytes)
    requires Happens(events, w) && Enabled(w, Chunk(pcm))
    ensures var t, gone := Step(w, Chunk(pcm)), |Gone(w.removed)|;
            if |pcm| % 2 == 1 then t.stopped && t.(stopped := false) == w
            else
              && !t.stopped && t.input == w.input + Samples(pcm) && t.frames == w.frames
              && |Gone(t.removed)| == gone + (if Waiting(t, gone) > 9600 then Waiting(t, gone) - 9600 else 0)
  {
    RunKeeps(Start(), events);
    var t := Step(w, Chunk(pcm));
    if |pcm| % 2 == 0 {
      EnqueueKeeps(w, pcm);
      ChunkKeeps(w, pcm);
    }
  }

  /** The writer starts open and empty, and only a cancel, a failed write or half a sample stops it. */
  lemma StopsIff(w: Writer, e: Event)
    requires Enabled(w, e)
    ensures Start().pcmOpen && !Start().stopped && Start().buffer == [] && !w.stopped
    ensures Step(w, e).stopped <==> e.Cancel? || (e.Tick? && !e.written) || (e.Chunk? && |e.pcm| % 2 == 1)
    ensures Step(w, e).stopped ==> forall f :: !Enabled(Step(w, e), f)
    ensures !Step(w, e).pcmOpen <==> e.EndOfPcm? || !w.pcmOpen
    ensures e.Cancel? ==> Step(w, e) == w.(stopped := true)
  {
  }

  // ---- As the source writes it ---------------------------------------------

  class OpusWriter {
    var buffer: seq<I16>
    var previous: Option<I16>
    var pcmOpen: bool
    var stopped: bool
    ghost var input: seq<I16>
    ghost var removed: seq<Removal>
    var frames: seq<seq<I16>>

    ghost function View(): Writer
      reads this
    {
      Writer(buffer, previous, pcmOpen, stopped, input, removed, frames)
    }

    constructor ()
      ensures View() == Start()
    {
      buffer, previous, pcmOpen, stopped := [], None, true, false;
      input, removed, frames := [], [], [];
    }

    method EnqueueUpsampledPcm(pcm: Bytes)
      modifies this`buffer, this`previous
      ensures Stream(buffer, previous) == Enqueue(Stream(old(buffer), old(previous)), pcm)
    {
      var rest := pcm;
      ghost var before := Stream(buffer, previous);
      while |rest| >= 2
        invariant Enqueue(Stream(buffer, previous), rest) == Enqueue(before, pcm)
        decreases |rest|
      {
        var current := FromLe(rest[0], rest[1]);
        if previous.Some? {
          PushTriple(previous.value, current);
        }
        previous := Some(current);
        rest := rest[2..];
      }
      assert buffer + [] == buffer;
    }

    method PushTriple(prior: I16, current: I16)
      modifies this`buffer
      ensures buffer == old(buffer) + Triple(prior, current)
    {
      var phase := 0;
      while phase < 3
        invariant phase <= 3 && buffer == old(buffer) + Triple(prior, current)[..phase]
      {
        buffer := buffer + [Between(prior, current, phase)];
        phase := phase + 1;
      }
    }

    method FlushUpsampledPcm()
      modifies this`buffer, this`previous
      ensures Stream(buffer, previous) == Flush(Stream(old(buffer), old(previous)))
    {
      if previous.Some? {
        buffer := buffer + [previous.value, previous.value, previous.value];
        previous := None;
      } else {
        assert buffer + [] == buffer;
      }
    }

    method TrimStaleInput() returns (stale: nat)
      modifies this`buffer, this`removed
      ensures View() == Trimmed(old(View())) && stale == |old(buffer)| - |buffer|
    {
      stale := if |buffer| > MaxBuffered then |buffer| - MaxBuffered else 0;
      if stale > 0 {
        removed := removed + [Dropped(buffer[..stale])];
      }
      buffer := buffer[stale..];
    }

    /** Fills one frame sample by sample until the buffer runs dry. */
    method TakeFrame() returns (frame: seq<I16>)
      modifies this`buffer, this`removed
      ensures var n := Min(|old(buffer)|, FrameSamples);
              && frame == old(buffer)[..n] + seq(FrameSamples - n, _ => 0)
              && buffer == old(buffer)[n..] && removed == old(removed) + [Sent(old(buffer)[..n])]
    {
      frame := [];
      var whole := buffer;
      while |frame| < FrameSamples && |frame| < |whole|
        invariant |frame| <= Min(|whole|, FrameSamples) && frame == whole[..|frame|]
      {
        frame := frame + [whole[|frame|]];
      }
      removed := removed + [Sent(frame)];
      buffer := whole[|frame|..];
      frame := frame + seq(FrameSamples - |frame|, _ => 0);
    }

    method Handle(e: Event)
      requires Enabled(View(), e)
      modifies this
      ensures View() == Step(old(View()), e)
    {
      match e {
        case Chunk(pcm) =>
          if |pcm| % 2 != 0 {
            stopped := true;
          } else {
            input := input + Samples(pcm);
            EnqueueUpsampledPcm(pcm);
            var _ := TrimStaleInput();
          }
        case EndOfPcm =>
          FlushUpsampledPcm();
          pcmOpen := false;
        case Tick(written) =>
          var frame := TakeFrame();
          frames := frames + [frame];
          stopped := !written;
        case Cancel => stopped := true;
      }
    }

    /** Chunks and ticks in any order: exactly the model's run. */
    method RunEvents(events: seq<Event>)
      requires Feasible(View(), events)
      modifies this
      ensures View() == Run(old(View()), events)
    {
      var i := 0;
      assert events[0..] == events;
      while i < |events|
        invariant i <= |events|
        invariant Feasible(View(), events[i..]) && Run(View(), events[i..]) == Run(old(View()), events)
      {
        assert events[i..][1..] == events[i + 1..];
        Handle(events[i]);
        i := i + 1;
      }
    }
  }
}
