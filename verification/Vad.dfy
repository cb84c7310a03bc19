/**
 Voice activity segmentation of `SpeechCollector`.

 The gain and the voice decision are functions of the block; the clock is a reading
 per block.
 */
module Vad {
  import opened Options
  import opened VadSettings

  /** The clock when a block is looked at and when an utterance it ends is put away. */
  datatype Reading = Reading(now: nat, done: nat)

  type Clock = nat -> Reading

  datatype SpeechEvent = SpeechStart | SpeechRejected | Utterance(bytes: Bytes)

  /** `taken` counts the blocks drained so far; it only picks the clock reading. */
  datatype Collector = Collector(
    pending: Bytes,
    preRoll: seq<Bytes>,
    utterance: Bytes,
    inSpeech: bool,
    voicedMs: nat,
    silenceRunMs: nat,
    utteranceMs: nat,
    lastCompleted: Option<nat>,
    taken: nat)

  function New(): Collector { Collector([], [], [], false, 0, 0, 0, None, 0) }

  function Concat(blocks: seq<Bytes>): Bytes {
    if blocks == [] then [] else Concat(blocks[..|blocks| - 1]) + blocks[|blocks| - 1]
  }

  function LastOf(blocks: seq<Bytes>, n: nat): seq<Bytes> {
    if |blocks| > n then blocks[|blocks| - n..] else blocks
  }

  function Elapsed(since: nat, now: nat): nat { if now > since then now - since else 0 }

  predicate CoolingDown(v: Settings, c: Collector, now: nat) {
    c.lastCompleted.Some? && !c.inSpeech && Elapsed(c.lastCompleted.value, now) < v.cooldown
  }

  /** Blocks are ignored for the cooldown after an utterance was put away, and for no longer. */
  lemma CoolsDownIff(v: Settings, c: Collector, now: nat)
    requires v.cooldown > 0
    ensures CoolingDown(v, c, now) <==>
            c.lastCompleted.Some? && !c.inSpeech && now < c.lastCompleted.value + v.cooldown
    ensures now >= v.cooldown && !c.inSpeech && c.lastCompleted == Some(now - v.cooldown) ==> !CoolingDown(v, c, now)
  {
  }

  /** A block while nobody speaks: kept for pre-roll, or the start of speech. */
  function Idle(v: Settings, c: Collector, gained: Bytes): (Collector, Option<SpeechEvent>)
    requires v.blockBytes > 0
  {
    var preRoll := LastOf(c.preRoll + [gained], v.preRollBlocks);
    if v.voice(gained)
    then (c.(preRoll := preRoll, inSpeech := true, utterance := Concat(preRoll), voicedMs := v.blockMs,
             silenceRunMs := 0, utteranceMs := v.blockMs * |preRoll|, taken := c.taken + 1), Some(SpeechStart))
    else (c.(preRoll := preRoll, taken := c.taken + 1), None)
  }

  /** A block of speech, before it is decided whether the utterance ends. */
  function Spoken(v: Settings, c: Collector, gained: Bytes): Collector
    requires v.blockBytes > 0
  {
    if v.voice(gained)
    then c.(utterance := c.utterance + gained, utteranceMs := c.utteranceMs + v.blockMs,
            voicedMs := c.voicedMs + v.blockMs, silenceRunMs := 0, taken := c.taken + 1)
    else c.(utterance := c.utterance + gained, utteranceMs := c.utteranceMs + v.blockMs,
            silenceRunMs := c.silenceRunMs + v.blockMs, taken := c.taken + 1)
  }

  predicate Continues(v: Settings, c: Collector) {
    c.silenceRunMs < v.silenceMs && c.utteranceMs < v.maxUtteranceMs
  }

  function Reset(c: Collector, done: nat): Collector {
    Collector(c.pending, [], [], false, 0, 0, 0, Some(done), c.taken)
  }

  function PushBlock(v: Settings, c: Collector, r: Reading, block: Bytes)
    : (after: (Collector, Option<SpeechEvent>))
    requires v.blockBytes > 0
    ensures after.0.pending == c.pending && after.0.taken == c.taken + 1
  {
    if CoolingDown(v, c, r.now) then (c.(taken := c.taken + 1), None)
    else if !c.inSpeech then Idle(v, c, v.gain(block))
    else
      var spoken := Spoken(v, c, v.gain(block));
      if Continues(v, spoken) then (spoken, None)
      else if spoken.voicedMs < v.minSpeechMs then (Reset(spoken, r.done), Some(SpeechRejected))
      else (Reset(spoken, r.done), Some(Utterance(spoken.utterance)))
  }

  datatype Fed = Fed(c: Collector, events: seq<SpeechEvent>)

  function Listed(e: Option<SpeechEvent>): seq<SpeechEvent> { if e.Some? then [e.value] else [] }

  /** Takes whole blocks off the front of `pending` as long as there are any. */
  function Drain(v: Settings, clock: Clock, c: Collector): Fed
    requires v.blockBytes > 0
    decreases |c.pending|
  {
    var n := v.blockBytes;
    if |c.pending| < n then Fed(c, [])
    else
      var (next, event) := PushBlock(v, c.(pending := c.pending[n..]), clock(c.taken), c.pending[..n]);
      var rest := Drain(v, clock, next);
      Fed(rest.c, Listed(event) + rest.events)
  }

  function Push(v: Settings, clock: Clock, c: Collector, bytes: Bytes): Fed
    requires v.blockBytes > 0
  {
    Drain(v, clock, c.(pending := c.pending + bytes))
  }
}
