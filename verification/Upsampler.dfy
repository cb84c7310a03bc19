/**
 The streaming 16k to 48k upsampler: between two input samples it emits the first and
 two interpolated ones, with Rust's division that truncates toward zero.
 */
module Upsampler {
  import opened Options
  import opened Chunks

  type Byte = x: int | 0 <= x < 0x100
  type Bytes = seq<Byte>
  type I16 = x: int | -0x8000 <= x < 0x8000

  /** `i16::from_le_bytes`. */
  function FromLe(lo: Byte, hi: Byte): I16 {
    var v := lo + 0x100 * hi;
    if v < 0x8000 then v else v - 0x1_0000
  }

  /** The whole samples of a chunk; `chunks_exact` leaves an odd last byte out. */
  function Samples(pcm: Bytes): seq<I16> {
    if |pcm| < 2 then [] else [FromLe(pcm[0], pcm[1])] + Samples(pcm[2..])
  }

  function Third(x: int): int { if x >= 0 then x / 3 else -((-x) / 3) }

  /** The sample `phase` thirds of the way; the cast to sixteen bits never wraps. */
  function Between(prior: I16, current: I16, phase: nat): (y: I16)
    requires phase < 3
    ensures phase == 0 ==> y == prior
    ensures prior <= current ==> prior <= y <= current
    ensures current <= prior ==> current <= y <= prior
  {
    var delta: int := current - prior;
    prior + Third(if phase == 0 then 0 else if phase == 1 then delta else 2 * delta)
  }

  function Triple(prior: I16, current: I16): (t: seq<I16>)
    ensures |t| == 3
  {
    [Between(prior, current, 0), Between(prior, current, 1), Between(prior, current, 2)]
  }

  /** What is emitted for `input` after `previous`. */
  function Emitted(previous: Option<I16>, input: seq<I16>): seq<I16>
    decreases |input|
  {
    if input == [] then []
    else (if previous.Some? then Triple(previous.value, input[0]) else []) + Emitted(Some(input[0]), input[1..])
  }

  function LastOf(previous: Option<I16>, input: seq<I16>): Option<I16> {
    if input == [] then previous else Some(input[|input| - 1])
  }

  function Flushed(previous: Option<I16>): seq<I16> {
    if previous.Some? then [previous.value, previous.value, previous.value] else []
  }

  /** One-shot upsampling. */
  function Upsampled(input: seq<I16>): seq<I16> { Emitted(None, input) + Flushed(LastOf(None, input)) }

  // ---- Chunks do not matter ------------------------------------------------

  lemma {:induction false} EmittedSplits(previous: Option<I16>, a: seq<I16>, b: seq<I16>)
    ensures Emitted(previous, a + b) == Emitted(previous, a) + Emitted(LastOf(previous, a), b)
    decreases |a|
  {
    if a == [] {
      assert a + b == b;
      assert [] + Emitted(previous, b) == Emitted(previous, b);
    } else {
      var first := if previous.Some? then Triple(previous.value, a[0]) else [];
      var last := LastOf(previous, a);
      assert (a + b)[0] == a[0] && (a + b)[1..] == a[1..] + b;
      assert last == LastOf(Some(a[0]), a[1..]);
      EmittedSplits(Some(a[0]), a[1..], b);
      Associates(first, Emitted(Some(a[0]), a[1..]), Emitted(last, b));
    }
  }

  lemma {:induction false} SamplesSplit(a: Bytes, b: Bytes)
    requires |a| % 2 == 0
    ensures Samples(a + b) == Samples(a) + Samples(b)
    decreases |a|
  {
    if a == [] {
      assert a + b == b;
    } else {
      assert (a + b)[0] == a[0] && (a + b)[1] == a[1] && (a + b)[2..] == a[2..] + b;
      SamplesSplit(a[2..], b);
    }
  }

  datatype Stream = Stream(output: seq<I16>, previous: Option<I16>)

  function Enqueue(s: Stream, pcm: Bytes): Stream {
    Stream(s.output + Emitted(s.previous, Samples(pcm)), LastOf(s.previous, Samples(pcm)))
  }

  function EnqueueAll(s: Stream, chunks: seq<Bytes>): Stream
    decreases |chunks|
  {
    if chunks == [] then s else EnqueueAll(Enqueue(s, chunks[0]), chunks[1..])
  }

  function Flush(s: Stream): Stream { Stream(s.output + Flushed(s.previous), None) }

  lemma EnqueueTwice(s: Stream, a: Bytes, b: Bytes)
    requires |a| % 2 == 0
    ensures Enqueue(Enqueue(s, a), b) == Enqueue(s, a + b)
  {
    var x, y := Samples(a), Samples(b);
    SamplesSplit(a, b);
    EmittedSplits(s.previous, x, y);
    Associates(s.output, Emitted(s.previous, x), Emitted(LastOf(s.previous, x), y));
  }

  lemma {:induction false} ChunksJoin(s: Stream, chunks: seq<Bytes>)
    requires forall c | c in chunks :: |c| % 2 == 0
    ensures EnqueueAll(s, chunks) == Enqueue(s, Joined(chunks))
    decreases |chunks|
  {
    if chunks == [] {
      assert s.output + [] == s.output;
    } else {
      assert forall c | c in chunks[1..] :: c in chunks;
      ChunksJoin(Enqueue(s, chunks[0]), chunks[1..]);
      EnqueueTwice(s, chunks[0], Joined(chunks[1..]));
    }
  }

  /** Streaming any split into even chunks is upsampling in one shot. */
  lemma StreamingIsOneShot(chunks: seq<Bytes>)
    requires forall c | c in chunks :: |c| % 2 == 0
    ensures Flush(EnqueueAll(Stream([], None), chunks)) == Stream(Upsampled(Samples(Joined(chunks))), None)
  {
    ChunksJoin(Stream([], None), chunks);
    var input := Samples(Joined(chunks));
    assert [] + Emitted(None, input) == Emitted(None, input);
  }

  // ---- What one-shot upsampling computes -----------------------------------

  lemma {:induction false} EmittedLength(previous: I16, input: seq<I16>)
    ensures |Emitted(Some(previous), input)| == 3 * |input|
    decreases |input|
  {
    if input != [] {
      EmittedLength(input[0], input[1..]);
    }
  }

  lemma {:induction false} EmittedAt(previous: I16, input: seq<I16>, i: nat, phase: nat)
    requires i < |input| && phase < 3
    ensures |Emitted(Some(previous), input)| == 3 * |input|
    ensures Emitted(Some(previous), input)[3 * i + phase] ==
            Between(if i == 0 then previous else input[i - 1], input[i], phase)
    decreases |input|
  {
    var first, rest := Triple(previous, input[0]), Emitted(Some(input[0]), input[1..]);
    EmittedLength(previous, input);
    if i == 0 {
      assert (first + rest)[phase] == first[phase];
    } else {
      EmittedAt(input[0], input[1..], i - 1, phase);
      assert (first + rest)[3 * i + phase] == rest[3 * (i - 1) + phase];
    }
  }

  lemma UpsampledIs(input: seq<I16>)
    requires input != []
    ensures Upsampled(input) == Emitted(Some(input[0]), input[1..]) + Flushed(Some(input[|input| - 1]))
    ensures |Upsampled(input)| == 3 * |input|
  {
    EmittedLength(input[0], input[1..]);
    assert Emitted(None, input) == [] + Emitted(Some(input[0]), input[1..]);
  }

  lemma InnerSample(input: seq<I16>, i: nat, phase: nat)
    requires i + 1 < |input| && phase < 3
    ensures |Upsampled(input)| == 3 * |input|
    ensures Upsampled(input)[3 * i + phase] == Between(input[i], input[i + 1], phase)
  {
    var tail := input[1..];
    UpsampledIs(input);
    EmittedAt(input[0], tail, i, phase);
    assert i > 0 ==> tail[i - 1] == input[i];
  }

  /**
   Every input sample yields exactly three outputs: itself, then two that lie between it
   and the next one; the last is held.
   */
  lemma ThreePerSample(input: seq<I16>, i: nat, phase: nat)
    requires i < |input| && phase < 3
    ensures |Upsampled(input)| == 3 * |input|
    ensures Upsampled(input)[3 * i] == input[i]
    ensures i + 1 < |input| ==>
              var y := Upsampled(input)[3 * i + phase];
              && y == Between(input[i], input[i + 1], phase)
              && (input[i] <= y <= input[i + 1] || input[i + 1] <= y <= input[i])
    ensures i + 1 == |input| ==> Upsampled(input)[3 * i + phase] == input[i]
  {
    UpsampledIs(input);
    if i + 1 < |input| {
      InnerSample(input, i, phase);
      InnerSample(input, i, 0);
    } else {
      EmittedLength(input[0], input[1..]);
    }
  }

  /** Little-endian two's complement: every sample has exactly one spelling in two bytes. */
  lemma SamplesAreLittleEndian(pcm: Bytes, k: nat, v: I16)
    requires 2 * k + 1 < |pcm|
    ensures |Samples(pcm)| == |pcm| / 2
    ensures Samples(pcm)[k] == v <==> pcm[2 * k] == v % 0x100 && pcm[2 * k + 1] == (v / 0x100) % 0x100
  {
    SampleAt(pcm, k);
    LittleEndian(pcm[2 * k], pcm[2 * k + 1], v);
  }

  lemma LittleEndian(lo: Byte, hi: Byte, v: I16)
    ensures FromLe(lo, hi) == v <==> lo == v % 0x100 && hi == (v / 0x100) % 0x100
  {
  }

  lemma {:induction false} SampleAt(pcm: Bytes, k: nat)
    requires 2 * k + 1 < |pcm|
    ensures |Samples(pcm)| == |pcm| / 2 && Samples(pcm)[k] == FromLe(pcm[2 * k], pcm[2 * k + 1])
    decreases |pcm|
  {
    SamplesLength(pcm[2..]);
    if k > 0 {
      SampleAt(pcm[2..], k - 1);
    }
  }

  lemma {:induction false} SamplesLength(pcm: Bytes)
    ensures |Samples(pcm)| == |pcm| / 2
    decreases |pcm|
  {
    if |pcm| >= 2 {
      SamplesLength(pcm[2..]);
    }
  }

  /** `y` is `phase` thirds of the way, less than a step off and never further from `prior`. */
  predicate OnTheLine(prior: int, next: int, phase: nat, y: int) {
    && -3 < 3 * (y - prior) - phase * (next - prior) < 3
    && (next >= prior ==> 3 * (y - prior) <= phase * (next - prior))
    && (next <= prior ==> 3 * (y - prior) >= phase * (next - prior))
  }

  /**
   Each output lies on the straight line between its input sample and the next, rounded
   toward the former by less than one step; this leaves one possible value.
   */
  lemma InterpolatesLinearly(input: seq<I16>, i: nat, phase: nat)
    requires i + 1 < |input| && phase < 3
    ensures |Upsampled(input)| == 3 * |input|
    ensures OnTheLine(input[i], input[i + 1], phase, Upsampled(input)[3 * i + phase])
  {
    InnerSample(input, i, phase);
  }

  /** From each input sample to the next the output runs one way. */
  lemma RunsOneWay(input: seq<I16>, i: nat)
    requires i + 1 < |input|
    ensures |Upsampled(input)| == 3 * |input|
    ensures var out := Upsampled(input);
            if input[i] <= input[i + 1]
            then out[3 * i] <= out[3 * i + 1] <= out[3 * i + 2] <= out[3 * i + 3]
            else out[3 * i] >= out[3 * i + 1] >= out[3 * i + 2] >= out[3 * i + 3]
  {
    InnerSample(input, i, 0);
    InnerSample(input, i, 1);
    InnerSample(input, i, 2);
    ThreePerSample(input, i + 1, 0);
  }
}
