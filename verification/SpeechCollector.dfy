/** `SpeechCollector` as the source writes it: buffers and counters updated block by block. */
module SpeechCollectors {
  import opened Options
  import opened VadSettings
  import opened Vad

  /** One block drained, with the events already out. */
  lemma DrainTakesOne(v: Settings, clock: Clock, c: Collector, events: seq<SpeechEvent>)
    requires v.blockBytes > 0 && |c.pending| >= v.blockBytes
    ensures var n := v.blockBytes;
            var (next, event) := Vad.PushBlock(v, c.(pending := c.pending[n..]), clock(c.taken), c.pending[..n]);
            var whole, rest := Drain(v, clock, c), Drain(v, clock, next);
            whole.c == rest.c && events + whole.events == events + Listed(event) + rest.events
  {
    var n := v.blockBytes;
    var (next, event) := Vad.PushBlock(v, c.(pending := c.pending[n..]), clock(c.taken), c.pending[..n]);
    var rest := Drain(v, clock, next);
    assert Drain(v, clock, c).events == Listed(event) + rest.events;
    assert events + (Listed(event) + rest.events) == events + Listed(event) + rest.events;
  }

  class SpeechCollector {
    const v: Settings
    const sampleRate: nat
    var pending: Bytes
    var preRoll: seq<Bytes>
    var utterance: Bytes
    var inSpeech: bool
    var voicedMs: nat
    var silenceRunMs: nat
    var utteranceMs: nat
    var lastCompleted: Option<nat>
    var taken: nat

    ghost predicate Valid() {
      v.blockBytes > 0 && sampleRate > 0 && v.blockMs == MsOf(sampleRate, v.blockBytes) &&
      forall b: Bytes :: |v.gain(b)| == |b|
    }

    ghost function View(): Collector
      reads this
    {
      Collector(pending, preRoll, utterance, inSpeech, voicedMs, silenceRunMs, utteranceMs, lastCompleted, taken)
    }

    constructor (cfg: CaptureConfig, gain: Bytes -> Bytes, voice: Bytes -> bool)
      requires cfg.sampleRate > 0 && forall b: Bytes :: |gain(b)| == |b|
      ensures Valid() && v == Configure(cfg, gain, voice) && sampleRate == cfg.sampleRate
      ensures View() == New()
    {
      v := Configure(cfg, gain, voice);
      sampleRate := cfg.sampleRate;
      pending, preRoll, utterance, inSpeech := [], [], [], false;
      voicedMs, silenceRunMs, utteranceMs, lastCompleted, taken := 0, 0, 0, None, 0;
    }

    method Push(bytes: Bytes, clock: Clock) returns (events: seq<SpeechEvent>)
      requires Valid()
      modifies this
      ensures Fed(View(), events) == Vad.Push(v, clock, old(View()), bytes)
    {
      events := [];
      pending := pending + bytes;
      while |pending| >= v.blockBytes
        invariant var rest := Drain(v, clock, View());
                  Fed(rest.c, events + rest.events) == Vad.Push(v, clock, old(View()), bytes)
        decreases |pending|
      {
        DrainTakesOne(v, clock, View(), events);
        var block := pending[..v.blockBytes];
        pending := pending[v.blockBytes..];
        var event := PushBlock(block, clock(taken));
        events := events + Listed(event);
      }
    }

    method PushBlock(block: Bytes, now: Reading) returns (event: Option<SpeechEvent>)
      requires Valid() && |block| == v.blockBytes
      modifies this
      ensures (View(), event) == Vad.PushBlock(v, old(View()), now, block)
    {
      taken := taken + 1;
      if lastCompleted.Some? {
        if !inSpeech && Elapsed(lastCompleted.value, now.now) < v.cooldown {
          return None;
        }
      }
      var gained := v.gain(block);
      var blockMs := MsOf(sampleRate, |gained|);
      var isVoice := v.voice(gained);
      if !inSpeech {
        event := Listen(gained, blockMs, isVoice);
        return;
      }
      Record(gained, blockMs, isVoice);
      if silenceRunMs < v.silenceMs && utteranceMs < v.maxUtteranceMs {
        return None;
      }
      var finished, voiced := utterance, voicedMs;
      ResetAfterUtterance(now.done);
      event := Some(if voiced < v.minSpeechMs then SpeechRejected else Utterance(finished));
    }

    /** A block while nobody speaks. */
    method Listen(gained: Bytes, blockMs: nat, isVoice: bool) returns (event: Option<SpeechEvent>)
      requires Valid() && blockMs == v.blockMs && isVoice == v.voice(gained)
      modifies this`preRoll, this`inSpeech, this`utterance, this`voicedMs, this`silenceRunMs, this`utteranceMs
      ensures (View().(taken := taken), event) == Idle(v, old(View()).(taken := taken - 1), gained)
      requires taken > 0
    {
      KeepForPreRoll(gained);
      if !isVoice {
        return None;
      }
      inSpeech := true;
      TakePreRoll();
      voicedMs := blockMs;
      silenceRunMs := 0;
      utteranceMs := blockMs * |preRoll|;
      event := Some(SpeechStart);
    }

    method KeepForPreRoll(gained: Bytes)
      modifies this`preRoll
      ensures preRoll == LastOf(old(preRoll) + [gained], v.preRollBlocks)
    {
      preRoll := preRoll + [gained];
      while |preRoll| > v.preRollBlocks
        invariant LastOf(preRoll, v.preRollBlocks) == LastOf(old(preRoll) + [gained], v.preRollBlocks)
        decreases |preRoll|
      {
        preRoll := preRoll[1..];
      }
    }

    method TakePreRoll()
      modifies this`utterance
      ensures utterance == Concat(preRoll)
    {
      utterance := [];
      var i := 0;
      while i < |preRoll|
        invariant i <= |preRoll| && utterance == Concat(preRoll[..i])
      {
        utterance := utterance + preRoll[i];
        i := i + 1;
        assert preRoll[..i][..i - 1] == preRoll[..i - 1];
      }
      assert preRoll[..i] == preRoll;
    }

    method Record(gained: Bytes, blockMs: nat, isVoice: bool)
      requires Valid() && blockMs == v.blockMs && isVoice == v.voice(gained) && taken > 0
      modifies this`utterance, this`voicedMs, this`silenceRunMs, this`utteranceMs
      ensures View() == Spoken(v, old(View()).(taken := taken - 1), gained)
    {
      utterance := utterance + gained;
      utteranceMs := utteranceMs + blockMs;
      if isVoice {
        voicedMs := voicedMs + blockMs;
        silenceRunMs := 0;
      } else {
        silenceRunMs := silenceRunMs + blockMs;
      }
    }

    method ResetAfterUtterance(done: nat)
      modifies this`preRoll, this`utterance, this`inSpeech, this`voicedMs, this`silenceRunMs, this`utteranceMs,
               this`lastCompleted
      ensures View() == Reset(old(View()), done)
    {
      preRoll, utterance := [], [];
      inSpeech := false;
      voicedMs, silenceRunMs, utteranceMs := 0, 0, 0;
      lastCompleted := Some(done);
    }
  }
}
