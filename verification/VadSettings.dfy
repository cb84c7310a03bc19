/**
 The settings of a speech collector: what its constructor derives from the capture
 configuration, for every positive sample rate. Integers are unbounded.
 */
module VadSettings {
  type Bytes = seq<bv8>

  datatype CaptureConfig = CaptureConfig(
    sampleRate: nat,
    blockMs: nat,
    preRollMs: nat,
    silenceMs: nat,
    minSpeechMs: nat,
    maxUtteranceS: real,
    cooldown: nat)

  /**
   What the constructor derives. `blockMs` is what `push_block` computes anew for each
   block from its length, which is always `blockBytes`.
   */
  datatype Settings = Settings(
    blockBytes: nat,
    blockMs: nat,
    preRollBlocks: nat,
    silenceMs: nat,
    minSpeechMs: nat,
    maxUtteranceMs: nat,
    cooldown: nat,
    gain: Bytes -> Bytes,
    voice: Bytes -> bool)

  function Max(a: int, b: int): (m: int)
    ensures m >= a && m >= b && (m == a || m == b)
  {
    if a >= b then a else b
  }

  /** Floor division. */
  function Quotient(a: nat, b: nat): (q: nat)
    requires b > 0
    ensures b * q <= a < b * (q + 1)
    decreases a
  {
    assert b * 0 == 0 && b * 1 == b;
    if a < b then 0
    else
      var less := Quotient(a - b, b);
      assert b * (less + 1) == b * less + b && b * (less + 2) == b * (less + 1) + b;
      less + 1
  }

  function CeilDiv(a: nat, b: nat): (q: nat)
    requires b > 0
    ensures q * b >= a && (q > 0 ==> (q - 1) * b < a)
  {
    var q := Quotient(a, b);
    if b * q == a then q else q + 1
  }

  function ConfiguredMs(cfg: CaptureConfig): nat { Max(cfg.blockMs, 10) }

  function BlockBytes(cfg: CaptureConfig): (n: nat)
    ensures n >= 2
  {
    Max(cfg.sampleRate * ConfiguredMs(cfg) / 1000, 1) * 2
  }

  function PreRollBlocks(cfg: CaptureConfig): (n: nat)
    ensures n >= 1
  {
    Max(CeilDiv(Max(cfg.preRollMs, ConfiguredMs(cfg)), ConfiguredMs(cfg)), 1)
  }

  function MaxUtteranceMs(cfg: CaptureConfig): (ms: nat)
    ensures ms >= 1000
  {
    var seconds := if cfg.maxUtteranceS < 1.0 then 1.0 else cfg.maxUtteranceS;
    (seconds * 1000.0).Floor
  }

  /** The length of a block of `len` bytes as `push_block` computes it. */
  function MsOf(sampleRate: nat, len: nat): nat
    requires sampleRate > 0
  {
    Quotient(len * 1000, sampleRate * 2)
  }

  function Configure(cfg: CaptureConfig, gain: Bytes -> Bytes, voice: Bytes -> bool): Settings
    requires cfg.sampleRate > 0
  {
    Settings(BlockBytes(cfg), MsOf(cfg.sampleRate, BlockBytes(cfg)), PreRollBlocks(cfg), cfg.silenceMs,
             cfg.minSpeechMs, MaxUtteranceMs(cfg), cfg.cooldown, gain, voice)
  }

  /** `n` is the whole part of `x`. */
  predicate WholePart(n: int, x: real) { n as real <= x < (n + 1) as real }

  /**
   The settings by what they mean: a block is the whole samples of its time, two bytes each,
   but at least one; its length is the whole milliseconds it lasts; the pre-roll is the
   fewest blocks that cover its time, at least one; an utterance lasts at least a second.
   */
  lemma SettingsAre(cfg: CaptureConfig, gain: Bytes -> Bytes, voice: Bytes -> bool)
    requires cfg.sampleRate > 0
    ensures var v, ms := Configure(cfg, gain, voice), if cfg.blockMs < 10 then 10 else cfg.blockMs;
            var samples := v.blockBytes / 2;
            && v.blockBytes == 2 * samples
            && (if cfg.sampleRate * ms < 1000 then samples == 1
                else 1000 * samples <= cfg.sampleRate * ms < 1000 * (samples + 1))
            && v.blockMs * (2 * cfg.sampleRate) <= 1000 * v.blockBytes < (v.blockMs + 1) * (2 * cfg.sampleRate)
            && v.preRollBlocks >= 1 && v.preRollBlocks * ms >= cfg.preRollMs
            && (v.preRollBlocks > 1 ==> (v.preRollBlocks - 1) * ms < cfg.preRollMs)
            && WholePart(v.maxUtteranceMs, 1000.0 * if cfg.maxUtteranceS > 1.0 then cfg.maxUtteranceS else 1.0)
            && v.silenceMs == cfg.silenceMs && v.minSpeechMs == cfg.minSpeechMs && v.cooldown == cfg.cooldown
            && v.gain == gain && v.voice == voice
  {
    var c := ConfiguredMs(cfg);
    var wanted := Max(cfg.preRollMs, c);
    OneBlockCovers(wanted, c, CeilDiv(wanted, c));
    var q := MsOf(cfg.sampleRate, BlockBytes(cfg));
    assert (2 * cfg.sampleRate) * q == q * (2 * cfg.sampleRate);
    assert (2 * cfg.sampleRate) * (q + 1) == (q + 1) * (2 * cfg.sampleRate);
  }

  /** Of a time that is at least one block, more than one block is needed only beyond it. */
  lemma OneBlockCovers(wanted: nat, ms: nat, blocks: nat)
    requires ms > 0 && wanted >= ms && blocks * ms >= wanted && (blocks > 0 ==> (blocks - 1) * ms < wanted)
    ensures blocks >= 1 && (blocks > 1 ==> wanted > ms)
  {
    if blocks > 1 {
      assert (blocks - 1) * ms >= 1 * ms;
    }
  }

  /** What every configuration with a positive sample rate gives; the gain works sample by sample. */
  ghost predicate Sound(v: Settings) {
    && v.blockBytes >= 2 && v.blockMs >= 5 && v.preRollBlocks >= 1 && v.maxUtteranceMs >= 1000
    && forall b: Bytes :: |v.gain(b)| == |b|
  }

  lemma ConfigureIsSound(cfg: CaptureConfig, gain: Bytes -> Bytes, voice: Bytes -> bool)
    requires cfg.sampleRate > 0 && forall b: Bytes :: |gain(b)| == |b|
    ensures Sound(Configure(cfg, gain, voice))
  {
    BlockMsAtLeastFive(cfg);
  }

  /** The recomputed block length is at least half of the configured one, whatever the sample rate. */
  lemma BlockMsAtLeastFive(cfg: CaptureConfig)
    requires cfg.sampleRate > 0
    ensures MsOf(cfg.sampleRate, BlockBytes(cfg)) >= 5
    ensures 2 * MsOf(cfg.sampleRate, BlockBytes(cfg)) + 1 >= ConfiguredMs(cfg)
  {
    var r, c := cfg.sampleRate, ConfiguredMs(cfg);
    var samples := Max(r * c / 1000, 1);
    AtLeastHalf(r, c, samples, Quotient(samples * 2 * 1000, r * 2));
  }

  lemma AtLeastHalf(r: nat, c: nat, samples: nat, q: nat)
    requires 2000 * samples >= r * c && samples * 2 * 1000 < r * 2 * (q + 1)
    ensures 2 * q + 1 >= c
  {
    assert r * 2 * (q + 1) == r * (2 * q + 2);
    Cancel(r, c, 2 * q + 2);
  }

  lemma Cancel(k: nat, a: nat, b: nat)
    requires k * a < k * b
    ensures a < b
  {
  }
}
