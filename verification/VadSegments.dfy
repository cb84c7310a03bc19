/**
 What segmentation means: where segments start and end, what they contain, and that it
 does not matter how the input is cut into chunks.
 */
module VadSegments {
  import opened Options
  import opened Chunks
  import opened VadSettings
  import opened Vad

  // ---- Chunks do not matter ------------------------------------------------

  /** The first block drained, whatever comes after it. */
  lemma DrainStep(v: Settings, clock: Clock, c: Collector, more: Bytes)
    requires v.blockBytes > 0 && |c.pending| >= v.blockBytes
    ensures var n := v.blockBytes;
            var (next, event) := PushBlock(v, c.(pending := c.pending[n..]), clock(c.taken), c.pending[..n]);
            var rest := Drain(v, clock, next.(pending := next.pending + more));
            Drain(v, clock, c.(pending := c.pending + more)) == Fed(rest.c, Listed(event) + rest.events)
  {
    var n := v.blockBytes;
    var all := c.pending + more;
    assert all[..n] == c.pending[..n];
    assert all[n..] == c.pending[n..] + more;
    PendingRides(v, c.(pending := c.pending[n..]), clock(c.taken), c.pending[..n], all[n..]);
  }

  /** Bytes that arrive later are drained later. */
  lemma {:induction false} DrainLater(v: Settings, clock: Clock, c: Collector, more: Bytes)
    requires v.blockBytes > 0
    ensures var first := Drain(v, clock, c);
            var second := Drain(v, clock, first.c.(pending := first.c.pending + more));
            Drain(v, clock, c.(pending := c.pending + more)) == Fed(second.c, first.events + second.events)
    decreases |c.pending|
  {
    var n := v.blockBytes;
    if |c.pending| >= n {
      var (next, event) := PushBlock(v, c.(pending := c.pending[n..]), clock(c.taken), c.pending[..n]);
      DrainLater(v, clock, next, more);
      var rest := Drain(v, clock, next);
      var second := Drain(v, clock, rest.c.(pending := rest.c.pending + more));
      DrainStep(v, clock, c, more);
      DrainStep(v, clock, c, []);
      assert c.pending + [] == c.pending && next.pending + [] == next.pending;
      Associates(Listed(event), rest.events, second.events);
    } else {
      assert Drain(v, clock, c) == Fed(c, []);
    }
  }

  /** What is still pending plays no part in a block. */
  lemma PendingRides(v: Settings, c: Collector, r: Reading, block: Bytes, pending: Bytes)
    requires v.blockBytes > 0
    ensures var (after, event) := PushBlock(v, c, r, block);
            PushBlock(v, c.(pending := pending), r, block) == (after.(pending := pending), event)
  {
  }

  function PushAll(v: Settings, clock: Clock, c: Collector, chunks: seq<Bytes>): Fed
    requires v.blockBytes > 0
    decreases |chunks|
  {
    if chunks == [] then Fed(c, [])
    else
      var first := Push(v, clock, c, chunks[0]);
      var rest := PushAll(v, clock, first.c, chunks[1..]);
      Fed(rest.c, first.events + rest.events)
  }

  /** Events and state depend only on the concatenated bytes. */
  lemma {:induction false} ChunksDoNotMatter(v: Settings, clock: Clock, c: Collector, chunks: seq<Bytes>)
    requires v.blockBytes > 0 && |c.pending| < v.blockBytes
    ensures PushAll(v, clock, c, chunks) == Push(v, clock, c, Joined(chunks))
    decreases |chunks|
  {
    if chunks == [] {
      assert c.pending + [] == c.pending;
    } else {
      var first := Push(v, clock, c, chunks[0]);
      Leftover(v, clock, c.(pending := c.pending + chunks[0]));
      ChunksDoNotMatter(v, clock, first.c, chunks[1..]);
      DrainLater(v, clock, c.(pending := c.pending + chunks[0]), Joined(chunks[1..]));
      assert c.pending + Joined(chunks) == c.pending + chunks[0] + Joined(chunks[1..]);
    }
  }

  lemma {:induction false} Leftover(v: Settings, clock: Clock, c: Collector)
    requires v.blockBytes > 0
    ensures |Drain(v, clock, c).c.pending| < v.blockBytes
    decreases |c.pending|
  {
    var n := v.blockBytes;
    if |c.pending| >= n {
      Leftover(v, clock, PushBlock(v, c.(pending := c.pending[n..]), clock(c.taken), c.pending[..n]).0);
    }
  }

  // ---- What a segment is ---------------------------------------------------

  /** Blocks `from..to`; `trigger` is the voiced block that opened it, `awake` the first one not in cooldown. */
  datatype Segment = Segment(awake: nat, from: nat, trigger: nat, to: nat)

  /** The gained block stream and the setting it is segmented in. */
  datatype Film = Film(v: Settings, clock: Clock, blocks: seq<Bytes>)

  ghost predicate WellCut(f: Film) {
    && f.v.blockBytes > 0 && f.v.preRollBlocks > 0
    && (forall k | 0 <= k < |f.blocks| :: |f.blocks[k]| == f.v.blockBytes)
    && (forall i, j | 0 <= i <= j < |f.blocks| :: f.clock(i).now <= f.clock(j).now)
  }

  predicate Voice(f: Film, k: nat)
    requires k < |f.blocks|
  {
    f.v.voice(f.blocks[k])
  }

  /** Block `k` falls in the cooldown after a segment that ended before block `end`; no segment ends before block 0. */
  predicate Cooling(f: Film, end: nat, k: nat) {
    end > 0 && Elapsed(f.clock(end - 1).done, f.clock(k).now) < f.v.cooldown
  }

  /** Blocks `end..awake` are in cooldown, `awake..to` are neither in cooldown nor voiced. */
  ghost predicate Silent(f: Film, end: nat, awake: nat, to: nat)
    requires to <= |f.blocks|
  {
    && end <= awake <= to
    && (forall k | end <= k < awake :: Cooling(f, end, k))
    && (forall k | awake <= k < to :: !Cooling(f, end, k) && !Voice(f, k))
  }

  /** The pre-roll never reaches back before `awake`. */
  function RollStart(f: Film, awake: nat, to: nat): (start: nat)
    ensures awake <= to ==> awake <= start <= to
  {
    if to - awake > f.v.preRollBlocks then to - f.v.preRollBlocks else awake
  }

  /** Speech opens at the first voiced block after the cooldown, with its pre-roll. */
  ghost predicate Opens(f: Film, end: nat, s: Segment) {
    && s.trigger < |f.blocks|
    && Silent(f, end, s.awake, s.trigger)
    && !Cooling(f, end, s.trigger)
    && Voice(f, s.trigger)
    && s.from == RollStart(f, s.awake, s.trigger + 1)
  }

  function Voiced(f: Film, lo: nat, hi: nat): nat
    requires hi <= |f.blocks|
  {
    if hi <= lo then 0 else Voiced(f, lo, hi - 1) + (if Voice(f, hi - 1) then 1 else 0)
  }

  /** The run of unvoiced blocks that ends just before `hi`. */
  function Quiet(f: Film, lo: nat, hi: nat): nat
    requires hi <= |f.blocks|
  {
    if hi <= lo || Voice(f, hi - 1) then 0 else Quiet(f, lo, hi - 1) + 1
  }

  /** The length of so many blocks, as the collector adds it up. */
  function Ms(f: Film, blocks: nat): nat {
    if blocks == 0 then 0 else Ms(f, blocks - 1) + f.v.blockMs
  }

  lemma {:induction false} MsIsProduct(f: Film, blocks: nat)
    ensures Ms(f, blocks) == f.v.blockMs * blocks
  {
    if blocks > 0 {
      MsIsProduct(f, blocks - 1);
      assert f.v.blockMs * blocks == f.v.blockMs * (blocks - 1) + f.v.blockMs;
    }
  }

  /** Enough silence, or too long. */
  predicate Stops(f: Film, from: nat, trigger: nat, to: nat)
    requires from <= to <= |f.blocks|
  {
    Ms(f, Quiet(f, trigger, to)) >= f.v.silenceMs || Ms(f, to - from) >= f.v.maxUtteranceMs
  }

  /** No block after the trigger has stopped the segment before `to`. */
  ghost predicate Goes(f: Film, from: nat, trigger: nat, to: nat)
    requires from <= trigger < to <= |f.blocks|
  {
    forall k | trigger + 2 <= k <= to :: !Stops(f, from, trigger, k)
  }

  /** A closed segment ends at the first block after the trigger that stops it. */
  ghost predicate Closes(f: Film, s: Segment)
  {
    && s.from <= s.trigger && s.trigger + 2 <= s.to <= |f.blocks|
    && Stops(f, s.from, s.trigger, s.to) && Goes(f, s.from, s.trigger, s.to - 1)
  }

  /** The event a closed segment must have produced. */
  function Verdict(f: Film, s: Segment): SpeechEvent
    requires s.from <= s.to <= |f.blocks|
  {
    if Ms(f, Voiced(f, s.trigger, s.to)) < f.v.minSpeechMs then SpeechRejected
    else Utterance(Concat(f.blocks[s.from..s.to]))
  }

  /** The closed segments, latest last. */
  datatype Reel = Blank | Then(before: Reel, last: Segment)

  /** Where the latest closed segment ended. */
  function End(reel: Reel): nat { if reel.Blank? then 0 else reel.last.to }

  ghost predicate ReelOk(f: Film, reel: Reel) {
    reel.Then? ==> ReelOk(f, reel.before) && Opens(f, End(reel.before), reel.last) && Closes(f, reel.last)
  }

  /** A start and a verdict for each closed segment. */
  function EventsOf(f: Film, reel: Reel): seq<SpeechEvent>
    requires ReelOk(f, reel)
  {
    if reel.Blank? then [] else EventsOf(f, reel.before) + [SpeechStart, Verdict(f, reel.last)]
  }

  function Segments(reel: Reel): seq<Segment> {
    if reel.Blank? then [] else Segments(reel.before) + [reel.last]
  }

  // ---- The collector watched -----------------------------------------------

  /** The collector with the segment it is in, if any; `open.to` is not used. */
  datatype Watched = Watched(c: Collector, open: Segment, reel: Reel, events: seq<SpeechEvent>)

  ghost predicate IdleOk(f: Film, w: Watched)
    requires w.c.taken <= |f.blocks|
  {
    var k, end := w.c.taken, End(w.reel);
    && Silent(f, end, w.open.awake, k)
    && w.c.preRoll == f.blocks[RollStart(f, w.open.awake, k)..k]
  }

  /** The sums of the collector are those of the open segment, one block further. */
  ghost predicate SumsAt(f: Film, s: Segment, k: nat, c: Collector)
    requires s.from <= k <= |f.blocks|
  {
    && c.utteranceMs == Ms(f, k - s.from)
    && c.voicedMs == Ms(f, Voiced(f, s.trigger, k))
    && c.silenceRunMs == Ms(f, Quiet(f, s.trigger, k))
  }

  ghost predicate SpeechOk(f: Film, w: Watched)
    requires w.c.taken <= |f.blocks|
  {
    var k, s := w.c.taken, w.open;
    && Opens(f, End(w.reel), s)
    && s.from <= s.trigger < k
    && w.c.utterance == Concat(f.blocks[s.from..k])
    && w.c.utteranceMs == Ms(f, k - s.from)
    && w.c.voicedMs == Ms(f, Voiced(f, s.trigger, k))
    && w.c.silenceRunMs == Ms(f, Quiet(f, s.trigger, k))
    && Goes(f, s.from, s.trigger, k)
  }

  ghost predicate Inv(f: Film, w: Watched) {
    && WellCut(f)
    && w.c.taken <= |f.blocks|
    && ReelOk(f, w.reel)
    && End(w.reel) <= w.c.taken
    && w.events == EventsOf(f, w.reel) + (if w.c.inSpeech then [SpeechStart] else [])
    && w.c.lastCompleted ==
       (if w.reel.Blank? then None else Some(f.clock(End(w.reel) - 1).done))
    && (w.c.inSpeech ==> SpeechOk(f, w))
    && (!w.c.inSpeech ==> IdleOk(f, w))
  }

  /** One more block, whose gained form is the film's next. */
  function Next(f: Film, w: Watched, block: Bytes): Watched
    requires f.v.blockBytes > 0
  {
    var k := w.c.taken;
    var (c, event) := PushBlock(f.v, w.c, f.clock(k), block);
    var events := w.events + Listed(event);
    if CoolingDown(f.v, w.c, f.clock(k).now) then
      Watched(c, w.open.(awake := k + 1), w.reel, events)
    else if !w.c.inSpeech && c.inSpeech then
      Watched(c, Segment(w.open.awake, RollStart(f, w.open.awake, k + 1), k, 0), w.reel, events)
    else if w.c.inSpeech && !c.inSpeech then
      Watched(c, Segment(k + 1, 0, 0, 0), Then(w.reel, w.open.(to := k + 1)), events)
    else
      Watched(c, w.open, w.reel, events)
  }

  /** The next block is the film's, gained. */
  ghost predicate Fits(f: Film, w: Watched, block: Bytes) {
    w.c.taken < |f.blocks| && f.v.gain(block) == f.blocks[w.c.taken]
  }

  lemma CoolingMatches(f: Film, w: Watched)
    requires Inv(f, w) && !w.c.inSpeech && w.c.taken < |f.blocks|
    ensures CoolingDown(f.v, w.c, f.clock(w.c.taken).now) <==>
            Cooling(f, End(w.reel), w.c.taken)
    ensures Cooling(f, End(w.reel), w.c.taken) ==> w.open.awake == w.c.taken
  {
    var k, end := w.c.taken, End(w.reel);
    if w.open.awake < k {
      assert !Cooling(f, end, k - 1);
    }
  }

  /** `t` is `w` one block later, in the same segments. */
  ghost predicate OneOn(w: Watched, t: Watched) {
    && t.c.taken == w.c.taken + 1
    && t.reel == w.reel
    && t.c.lastCompleted == w.c.lastCompleted
  }

  lemma CoolKeeps(f: Film, w: Watched, t: Watched)
    requires Inv(f, w) && !w.c.inSpeech && w.c.taken < |f.blocks| && OneOn(w, t)
    requires Cooling(f, End(w.reel), w.c.taken) && w.open.awake == w.c.taken
    requires !t.c.inSpeech && t.c.preRoll == w.c.preRoll && t.events == w.events
    requires t.open.awake == w.c.taken + 1
    ensures Inv(f, t)
  {
  }

  lemma WaitKeeps(f: Film, w: Watched, t: Watched)
    requires Inv(f, w) && !w.c.inSpeech && w.c.taken < |f.blocks| && OneOn(w, t)
    requires !Cooling(f, End(w.reel), w.c.taken) && !Voice(f, w.c.taken)
    requires !t.c.inSpeech && t.events == w.events && t.open.awake == w.open.awake
    requires t.c.preRoll == f.blocks[RollStart(f, w.open.awake, w.c.taken + 1)..w.c.taken + 1]
    ensures Inv(f, t)
  {
  }

  lemma OpenKeeps(f: Film, w: Watched, t: Watched)
    requires Inv(f, w) && !w.c.inSpeech && w.c.taken < |f.blocks| && OneOn(w, t)
    requires !Cooling(f, End(w.reel), w.c.taken) && Voice(f, w.c.taken)
    requires t.c.inSpeech && t.events == w.events + [SpeechStart]
    requires t.open == Segment(w.open.awake, RollStart(f, w.open.awake, w.c.taken + 1), w.c.taken, 0)
    requires t.c.utterance == Concat(f.blocks[t.open.from..w.c.taken + 1])
    requires t.c.utteranceMs == Ms(f, w.c.taken + 1 - t.open.from)
    requires t.c.voicedMs == f.v.blockMs && t.c.silenceRunMs == 0
    ensures Inv(f, t)
  {
    var k := w.c.taken;
    assert Opens(f, End(w.reel), t.open);
    assert Quiet(f, k, k + 1) == 0;
    assert Voiced(f, k, k) == 0 && Voiced(f, k, k + 1) == 1;
    assert Ms(f, 0) == 0 && Ms(f, 1) == f.v.blockMs;
    assert SpeechOk(f, t);
  }

  /** The pre-roll window slides by one block. */
  lemma RollSlides(f: Film, w: Watched)
    requires Inv(f, w) && !w.c.inSpeech && w.c.taken < |f.blocks|
    ensures var k := w.c.taken;
            LastOf(w.c.preRoll + [f.blocks[k]], f.v.preRollBlocks) ==
            f.blocks[RollStart(f, w.open.awake, k + 1)..k + 1]
  {
    var k, n, awake := w.c.taken, f.v.preRollBlocks, w.open.awake;
    var lo := RollStart(f, awake, k);
    assert w.c.preRoll + [f.blocks[k]] == f.blocks[lo..k + 1];
    if k + 1 - lo > n {
      assert f.blocks[lo..k + 1][k + 1 - lo - n..] == f.blocks[k + 1 - n..k + 1];
    }
  }

  /** What one block does while nobody speaks, and to what is recorded beside it. */
  lemma NextIdle(f: Film, w: Watched, block: Bytes)
    requires f.v.blockBytes > 0 && !w.c.inSpeech
    ensures var k, gained := w.c.taken, f.v.gain(block);
            var roll := LastOf(w.c.preRoll + [gained], f.v.preRollBlocks);
            var t := Next(f, w, block);
            && OneOn(w, t)
            && (if CoolingDown(f.v, w.c, f.clock(k).now) then
                  !t.c.inSpeech && t.c.preRoll == w.c.preRoll && t.events == w.events && t.open.awake == k + 1
                else if f.v.voice(gained) then
                  && t.c.inSpeech && t.c.utterance == Concat(roll) && t.c.utteranceMs == f.v.blockMs * |roll|
                  && t.c.voicedMs == f.v.blockMs && t.c.silenceRunMs == 0 && t.events == w.events + [SpeechStart]
                  && t.open == Segment(w.open.awake, RollStart(f, w.open.awake, k + 1), k, 0)
                else
                  !t.c.inSpeech && t.c.preRoll == roll && t.events == w.events && t.open == w.open)
  {
  }

  lemma IdleBlock(f: Film, w: Watched, block: Bytes)
    requires Inv(f, w) && Fits(f, w, block) && !w.c.inSpeech
    ensures Inv(f, Next(f, w, block))
  {
    CoolingMatches(f, w);
    RollSlides(f, w);
    NextIdle(f, w, block);
    var t := Next(f, w, block);
    if Cooling(f, End(w.reel), w.c.taken) {
      CoolKeeps(f, w, t);
    } else if Voice(f, w.c.taken) {
      MsIsProduct(f, w.c.taken + 1 - RollStart(f, w.open.awake, w.c.taken + 1));
      OpenKeeps(f, w, t);
    } else {
      WaitKeeps(f, w, t);
    }
  }

  lemma ConcatNext(blocks: seq<Bytes>, from: nat, k: nat)
    requires from <= k < |blocks|
    ensures Concat(blocks[from..k + 1]) == Concat(blocks[from..k]) + blocks[k]
  {
    assert blocks[from..k + 1][..k - from] == blocks[from..k];
  }

  lemma SpokenSums(f: Film, s: Segment, k: nat, c: Collector, gained: Bytes)
    requires s.from <= s.trigger < k < |f.blocks| && gained == f.blocks[k] && f.v.blockBytes > 0 && SumsAt(f, s, k, c)
    ensures SumsAt(f, s, k + 1, Spoken(f.v, c, gained))
  {
  }

  lemma SpokenBlock(f: Film, w: Watched, block: Bytes)
    requires Inv(f, w) && Fits(f, w, block) && w.c.inSpeech
    ensures var k, s := w.c.taken, w.open;
            var spoken := Spoken(f.v, w.c, f.v.gain(block));
            && spoken.utterance == Concat(f.blocks[s.from..k + 1])
            && SumsAt(f, s, k + 1, spoken)
            && (Continues(f.v, spoken) <==> !Stops(f, s.from, s.trigger, k + 1))
  {
    var k, s := w.c.taken, w.open;
    assert SpeechOk(f, w);
    ConcatNext(f.blocks, s.from, k);
    SpokenSums(f, s, k, w.c, f.blocks[k]);
  }

  lemma ContinueKeeps(f: Film, w: Watched, t: Watched)
    requires Inv(f, w) && w.c.inSpeech && w.c.taken < |f.blocks| && OneOn(w, t)
    requires t.c.inSpeech && t.events == w.events && t.open == w.open
    requires !Stops(f, w.open.from, w.open.trigger, t.c.taken)
    requires t.c.utterance == Concat(f.blocks[t.open.from..t.c.taken])
    requires t.c.utteranceMs == Ms(f, t.c.taken - t.open.from)
    requires t.c.voicedMs == Ms(f, Voiced(f, t.open.trigger, t.c.taken))
    requires t.c.silenceRunMs == Ms(f, Quiet(f, t.open.trigger, t.c.taken))
    ensures Inv(f, t)
  {
    assert SpeechOk(f, w);
    assert SpeechOk(f, t);
  }

  /** The open segment, closed at the block that stops it, is a right one. */
  lemma ClosesWell(f: Film, w: Watched)
    requires Inv(f, w) && w.c.inSpeech && w.c.taken < |f.blocks|
    requires Stops(f, w.open.from, w.open.trigger, w.c.taken + 1)
    ensures var closing := w.open.(to := w.c.taken + 1);
            Opens(f, End(w.reel), closing) && Closes(f, closing) && ReelOk(f, Then(w.reel, closing))
  {
    assert SpeechOk(f, w);
  }

  lemma CloseKeeps(f: Film, w: Watched, t: Watched)
    requires Inv(f, w) && w.c.inSpeech && w.c.taken < |f.blocks|
    requires t.c.taken == w.c.taken + 1 && !t.c.inSpeech && t.c.preRoll == []
    requires Stops(f, w.open.from, w.open.trigger, t.c.taken)
    requires t.reel == Then(w.reel, w.open.(to := t.c.taken))
    requires t.c.lastCompleted == Some(f.clock(w.c.taken).done)
    requires t.events == w.events + [Verdict(f, w.open.(to := t.c.taken))]
    requires t.open.awake == t.c.taken
    ensures Inv(f, t)
  {
    var closing := w.open.(to := t.c.taken);
    ClosesWell(f, w);
    assert t.events == EventsOf(f, t.reel);
    assert IdleOk(f, t);
  }

  /** What one block does to a collector in speech, and to what is recorded beside it. */
  lemma NextInSpeech(f: Film, w: Watched, block: Bytes)
    requires f.v.blockBytes > 0 && w.c.inSpeech
    ensures var k, spoken := w.c.taken, Spoken(f.v, w.c, f.v.gain(block));
            if Continues(f.v, spoken) then Next(f, w, block) == Watched(spoken, w.open, w.reel, w.events)
            else Next(f, w, block) ==
                 Watched(Reset(spoken, f.clock(k).done), Segment(k + 1, 0, 0, 0), Then(w.reel, w.open.(to := k + 1)),
                         w.events + [if spoken.voicedMs < f.v.minSpeechMs then SpeechRejected
                                     else Utterance(spoken.utterance)])
  {
  }

  /** The event at the block that stops a segment is the verdict on it. */
  lemma StopGivesVerdict(f: Film, w: Watched, block: Bytes)
    requires Inv(f, w) && Fits(f, w, block) && w.c.inSpeech
    requires Stops(f, w.open.from, w.open.trigger, w.c.taken + 1)
    ensures var k, spoken := w.c.taken, Spoken(f.v, w.c, f.v.gain(block));
            && !Continues(f.v, spoken)
            && Verdict(f, w.open.(to := k + 1)) ==
               if spoken.voicedMs < f.v.minSpeechMs then SpeechRejected else Utterance(spoken.utterance)
  {
    SpokenBlock(f, w, block);
  }

  lemma StoppingBlock(f: Film, w: Watched, block: Bytes)
    requires Inv(f, w) && Fits(f, w, block) && w.c.inSpeech
    requires Stops(f, w.open.from, w.open.trigger, w.c.taken + 1)
    ensures Inv(f, Next(f, w, block))
  {
    StopGivesVerdict(f, w, block);
    NextInSpeech(f, w, block);
    CloseKeeps(f, w, Next(f, w, block));
  }

  lemma ContinuingBlock(f: Film, w: Watched, block: Bytes)
    requires Inv(f, w) && Fits(f, w, block) && w.c.inSpeech
    requires !Stops(f, w.open.from, w.open.trigger, w.c.taken + 1)
    ensures Inv(f, Next(f, w, block))
  {
    SpokenBlock(f, w, block);
    NextInSpeech(f, w, block);
    ContinueKeeps(f, w, Next(f, w, block));
  }

  /** The whole stream from the collector's present block on. */
  function Watch(f: Film, w: Watched, raw: seq<Bytes>): Watched
    requires f.v.blockBytes > 0
    decreases |raw|
  {
    if raw == [] then w else Watch(f, Next(f, w, raw[0]), raw[1..])
  }

  ghost predicate Shows(f: Film, from: nat, raw: seq<Bytes>) {
    && |f.blocks| == from + |raw|
    && forall k | 0 <= k < |raw| :: f.v.gain(raw[k]) == f.blocks[from + k]
  }

  lemma NextKeeps(f: Film, w: Watched, block: Bytes)
    requires Inv(f, w) && Fits(f, w, block)
    ensures Inv(f, Next(f, w, block)) && Next(f, w, block).c.taken == w.c.taken + 1
  {
    if !w.c.inSpeech {
      IdleBlock(f, w, block);
    } else if Stops(f, w.open.from, w.open.trigger, w.c.taken + 1) {
      StoppingBlock(f, w, block);
    } else {
      ContinuingBlock(f, w, block);
    }
  }

  lemma {:induction false} WatchKeeps(f: Film, w: Watched, raw: seq<Bytes>)
    requires Inv(f, w) && Shows(f, w.c.taken, raw)
    ensures Inv(f, Watch(f, w, raw)) && Watch(f, w, raw).c.taken == |f.blocks|
    decreases |raw|
  {
    if raw != [] {
      NextKeeps(f, w, raw[0]);
      WatchKeeps(f, Next(f, w, raw[0]), raw[1..]);
    }
  }

  // ---- From bytes to segments ----------------------------------------------

  /** The whole blocks of a byte string. */
  function Cut(bytes: Bytes, n: nat): seq<Bytes>
    requires n > 0
    decreases |bytes|
  {
    if |bytes| < n then [] else [bytes[..n]] + Cut(bytes[n..], n)
  }

  lemma {:induction false} CutLengths(bytes: Bytes, n: nat)
    requires n > 0
    ensures forall k | 0 <= k < |Cut(bytes, n)| :: |Cut(bytes, n)[k]| == n
    decreases |bytes|
  {
    if |bytes| >= n {
      CutLengths(bytes[n..], n);
    }
  }

  function Gained(v: Settings, raw: seq<Bytes>): seq<Bytes> {
    seq(|raw|, k requires 0 <= k < |raw| => v.gain(raw[k]))
  }

  /** Draining bytes is watching their blocks go by. */
  lemma {:induction false} DrainIsWatch(f: Film, w: Watched, bytes: Bytes)
    requires f.v.blockBytes > 0 && w.c.pending == []
    ensures var raw := Cut(bytes, f.v.blockBytes);
            var fed := Drain(f.v, f.clock, w.c.(pending := bytes));
            var seen := Watch(f, w, raw);
            && fed.c.(pending := []) == seen.c
            && w.events + fed.events == seen.events
    decreases |bytes|
  {
    var n := f.v.blockBytes;
    if |bytes| >= n {
      PendingRides(f.v, w.c, f.clock(w.c.taken), bytes[..n], bytes[n..]);
      var next := Next(f, w, bytes[..n]);
      var (c, event) := PushBlock(f.v, w.c, f.clock(w.c.taken), bytes[..n]);
      assert next.c == c && next.events == w.events + Listed(event);
      DrainIsWatch(f, next, bytes[n..]);
      Associates(w.events, Listed(event), Drain(f.v, f.clock, c.(pending := bytes[n..])).events);
    }
  }

  ghost predicate Monotone(clock: Clock) { forall i, j :: i <= j ==> clock(i).now <= clock(j).now }

  function FilmOf(v: Settings, clock: Clock, bytes: Bytes): Film
    requires v.blockBytes > 0
  {
    Film(v, clock, Gained(v, Cut(bytes, v.blockBytes)))
  }

  function WatchBytes(v: Settings, clock: Clock, bytes: Bytes): Watched
    requires v.blockBytes > 0
  {
    Watch(FilmOf(v, clock, bytes), Watched(New(), Segment(0, 0, 0, 0), Blank, []), Cut(bytes, v.blockBytes))
  }

  lemma BeginsRight(v: Settings, clock: Clock, bytes: Bytes)
    requires Sound(v) && Monotone(clock)
    ensures Inv(FilmOf(v, clock, bytes), Watched(New(), Segment(0, 0, 0, 0), Blank, []))
    ensures Shows(FilmOf(v, clock, bytes), 0, Cut(bytes, v.blockBytes))
  {
    CutLengths(bytes, v.blockBytes);
  }

  /**
   Whatever the bytes: the events are a start and then one verdict for each segment, in
   order; each segment opens at the first voiced block out of cooldown, closes at the
   first block that makes it silent or long enough, and its utterance is exactly the
   gained blocks from its pre-roll to its end.
   */
  lemma SegmentsAreRight(v: Settings, clock: Clock, bytes: Bytes)
    requires Sound(v) && Monotone(clock)
    ensures Inv(FilmOf(v, clock, bytes), WatchBytes(v, clock, bytes))
    ensures var f, w, fed := FilmOf(v, clock, bytes), WatchBytes(v, clock, bytes), Push(v, clock, New(), bytes);
            && ReelOk(f, w.reel)
            && fed.events == EventsOf(f, w.reel) + (if fed.c.inSpeech then [SpeechStart] else [])
            && (fed.c.inSpeech ==> Opens(f, End(w.reel), w.open) && Goes(f, w.open.from, w.open.trigger, |f.blocks|))
            && (!fed.c.inSpeech ==> Silent(f, End(w.reel), w.open.awake, |f.blocks|))
  {
    var f := FilmOf(v, clock, bytes);
    var w := Watched(New(), Segment(0, 0, 0, 0), Blank, []);
    BeginsRight(v, clock, bytes);
    WatchKeeps(f, w, Cut(bytes, v.blockBytes));
    DrainIsWatch(f, w, bytes);
    assert New().pending + bytes == bytes;
  }

  /** The slices that become utterances are disjoint and in order. */
  lemma {:induction false} SlicesAreDisjoint(f: Film, reel: Reel)
    requires ReelOk(f, reel)
    ensures forall s | s in Segments(reel) :: s.from < s.to <= End(reel)
    ensures var all := Segments(reel); forall i, j | 0 <= i < j < |all| :: all[i].to <= all[j].from
  {
    if reel.Then? {
      SlicesAreDisjoint(f, reel.before);
      assert End(reel.before) <= reel.last.from;
      var all, n := Segments(reel), |Segments(reel.before)|;
      forall i, j | 0 <= i < j < |all| ensures all[i].to <= all[j].from {
        assert all[i] in Segments(reel.before);
        assert j < n ==> all[j] == Segments(reel.before)[j];
      }
    }
  }

  // ---- Every segment closes ------------------------------------------------

  lemma {:induction false} LongStops(f: Film, s: Segment, to: nat, most: nat)
    requires s.from <= to <= |f.blocks| && !Stops(f, s.from, s.trigger, to)
    requires most * f.v.blockMs >= f.v.maxUtteranceMs
    ensures to - s.from < most
  {
    MsIsProduct(f, to - s.from);
    Cancel(f.v.blockMs, to - s.from, most);
  }

  lemma {:induction false} ReelIsBounded(f: Film, reel: Reel)
    requires ReelOk(f, reel) && f.v.blockMs > 0
    ensures forall s | s in Segments(reel) ::
              s.to - s.from <= Max(f.v.preRollBlocks + 1, CeilDiv(f.v.maxUtteranceMs, f.v.blockMs))
  {
    if reel.Then? {
      ReelIsBounded(f, reel.before);
      var s := reel.last;
      if s.to > s.trigger + 2 {
        LongStops(f, s, s.to - 1, CeilDiv(f.v.maxUtteranceMs, f.v.blockMs));
      }
    }
  }

  lemma OpenIsBounded(f: Film, w: Watched)
    requires Inv(f, w) && w.c.inSpeech && f.v.blockMs > 0
    ensures w.c.taken - w.open.from < Max(f.v.preRollBlocks + 1, CeilDiv(f.v.maxUtteranceMs, f.v.blockMs))
    ensures w.c.utteranceMs == f.v.blockMs * (w.c.taken - w.open.from)
  {
    assert SpeechOk(f, w);
    MsIsProduct(f, w.c.taken - w.open.from);
    if w.c.taken >= w.open.trigger + 2 {
      LongStops(f, w.open, w.c.taken, CeilDiv(f.v.maxUtteranceMs, f.v.blockMs));
    }
  }

  /**
   Whatever the audio, an open segment has closed within
   `max(preRollBlocks + 1, ceil(maxUtteranceMs / blockMs))` blocks.
   */
  lemma SegmentsAreBounded(v: Settings, clock: Clock, bytes: Bytes)
    requires Sound(v) && Monotone(clock)
    ensures var w, most := WatchBytes(v, clock, bytes), Max(v.preRollBlocks + 1, CeilDiv(v.maxUtteranceMs, v.blockMs));
            && (forall s | s in Segments(w.reel) :: s.to - s.from <= most)
            && (w.c.inSpeech ==> w.c.taken - w.open.from < most)
            && (w.c.inSpeech ==> w.c.utteranceMs == v.blockMs * (w.c.taken - w.open.from))
  {
    SegmentsAreRight(v, clock, bytes);
    var f, w := FilmOf(v, clock, bytes), WatchBytes(v, clock, bytes);
    ReelIsBounded(f, w.reel);
    if w.c.inSpeech {
      OpenIsBounded(f, w);
    }
  }
}
