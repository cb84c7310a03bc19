/** The downlink messages of the probe, decoded from parsed fields. */
module Downlink {
  import opened Options
  import W = Wire
  import opened WireTheorems

  type Text = seq<char>

  /** `String::from_utf8`, left abstract. */
  type Utf8 = W.Bytes -> Option<Text>

  const SpeechTypeDownward: W.U64 := 1

  datatype AsrPartial = AsrPartial(isFinal: bool, length: Option<W.U64>)

  datatype DownEvent = DownEvent(
    downType: Option<W.U64>,
    dialogId: Option<Text>,
    transactionId: Option<Text>,
    asrPartial: Option<AsrPartial>)

  const NoPartial := AsrPartial(false, None)
  const NoEvent := DownEvent(None, None, None, None)

  /** A later field overrides an earlier one. */
  function SeePartial(p: AsrPartial, f: W.Field): AsrPartial {
    match f
    case VarintField(1, value) => p.(isFinal := value != 0)
    case VarintField(2, value) => p.(length := Some(value))
    case _ => p
  }

  function SeeAllPartial(p: AsrPartial, fields: seq<W.Field>): AsrPartial
    decreases |fields|
  {
    if fields == [] then p else SeeAllPartial(SeePartial(p, fields[0]), fields[1..])
  }

  function DecodeAsrPartial(buf: W.Bytes, usize: nat): Option<AsrPartial>
    requires W.UsizeRange(usize)
  {
    match W.Parse(buf, usize)
    case Err(_) => None
    case Ok(fields) => Some(SeeAllPartial(NoPartial, fields))
  }

  function See(e: DownEvent, f: W.Field, utf8: Utf8, usize: nat): DownEvent
    requires W.UsizeRange(usize)
  {
    match f
    case VarintField(1, value) => e.(downType := Some(value))
    case BytesField(2, bytes) => e.(dialogId := utf8(bytes))
    case BytesField(5, bytes) => e.(asrPartial := DecodeAsrPartial(bytes, usize))
    case BytesField(7, bytes) => e.(transactionId := utf8(bytes))
    case _ => e
  }

  function SeeAll(e: DownEvent, fields: seq<W.Field>, utf8: Utf8, usize: nat): DownEvent
    requires W.UsizeRange(usize)
    decreases |fields|
  {
    if fields == [] then e else SeeAll(See(e, fields[0], utf8, usize), fields[1..], utf8, usize)
  }

  function DecodeDownward(buf: W.Bytes, utf8: Utf8, usize: nat): Option<DownEvent>
    requires W.UsizeRange(usize)
  {
    match W.Parse(buf, usize)
    case Err(_) => None
    case Ok(fields) => Some(SeeAll(NoEvent, fields, utf8, usize))
  }

  function FirstVarint(fields: seq<W.Field>, number: nat): Option<W.U64> {
    if fields == [] then None
    else if fields[0].VarintField? && fields[0].number == number then Some(fields[0].value)
    else FirstVarint(fields[1..], number)
  }

  function FirstBytes(fields: seq<W.Field>, number: nat): Option<W.Bytes> {
    if fields == [] then None
    else if fields[0].BytesField? && fields[0].number == number then Some(fields[0].bytes)
    else FirstBytes(fields[1..], number)
  }

  function DecodeSpeechDownward(buf: W.Bytes, utf8: Utf8, usize: nat): Option<DownEvent>
    requires W.UsizeRange(usize)
  {
    match W.Parse(buf, usize)
    case Err(_) => None
    case Ok(fields) =>
      if FirstVarint(fields, 1) != Some(SpeechTypeDownward) then None
      else if FirstBytes(fields, 3).None? then None
      else DecodeDownward(FirstBytes(fields, 3).value, utf8, usize)
  }

  // ---- Round trips ---------------------------------------------------------

  predicate Plain(f: W.Sendable, usize: nat) { f.number < W.TwoTo61 && Holds(usize, f) }

  lemma PlainParses(fields: seq<W.Sendable>, usize: nat)
    requires W.UsizeRange(usize) && forall i | 0 <= i < |fields| :: Plain(fields[i], usize)
    ensures W.Parse(W.MessageOf(fields), usize) == Ok(fields)
  {
    forall f | f in fields ensures Holds(usize, f) {
      var i :| 0 <= i < |fields| && fields[i] == f;
      assert Plain(fields[i], usize);
    }
    forall i | 0 <= i < |fields| ensures fields[i].number < W.TwoTo61 {
      assert Plain(fields[i], usize);
    }
    MessageRoundTrip(fields, usize);
  }

  /** What comes last is seen last. */
  lemma {:induction false} SeeAllThen(e: DownEvent, a: seq<W.Field>, b: seq<W.Field>, utf8: Utf8, usize: nat)
    requires W.UsizeRange(usize)
    ensures SeeAll(e, a + b, utf8, usize) == SeeAll(SeeAll(e, a, utf8, usize), b, utf8, usize)
    decreases |a|
  {
    if a == [] {
      assert a + b == b;
    } else {
      assert (a + b)[0] == a[0] && (a + b)[1..] == a[1..] + b;
      SeeAllThen(See(e, a[0], utf8, usize), a[1..], b, utf8, usize);
    }
  }

  // ---- The last field of a number wins -------------------------------------

  function LastVarint(fields: seq<W.Field>, number: nat): Option<W.U64> {
    if fields == [] then None
    else
      var last := fields[|fields| - 1];
      if last.VarintField? && last.number == number then Some(last.value)
      else LastVarint(fields[..|fields| - 1], number)
  }

  function LastBytes(fields: seq<W.Field>, number: nat): Option<W.Bytes> {
    if fields == [] then None
    else
      var last := fields[|fields| - 1];
      if last.BytesField? && last.number == number then Some(last.bytes)
      else LastBytes(fields[..|fields| - 1], number)
  }

  /** The partial result of these fields, read off the last one of each number. */
  function PartialOf(fields: seq<W.Field>): AsrPartial {
    var final := LastVarint(fields, 1);
    AsrPartial(final.Some? && final.value != 0, LastVarint(fields, 2))
  }

  /** The text of a field, if it is there and is text. */
  function TextOf(bytes: Option<W.Bytes>, utf8: Utf8): Option<Text> {
    if bytes.Some? then utf8(bytes.value) else None
  }

  /** The event of these fields, read off the last one of each number. */
  function EventOf(fields: seq<W.Field>, utf8: Utf8, usize: nat): DownEvent
    requires W.UsizeRange(usize)
  {
    var partial := LastBytes(fields, 5);
    DownEvent(LastVarint(fields, 1), TextOf(LastBytes(fields, 2), utf8), TextOf(LastBytes(fields, 7), utf8),
              if partial.Some? then DecodeAsrPartial(partial.value, usize) else None)
  }

  lemma {:induction false} SeesLastPartial(fields: seq<W.Field>)
    ensures SeeAllPartial(NoPartial, fields) == PartialOf(fields)
    decreases |fields|
  {
    if fields != [] {
      var n := |fields| - 1;
      SeesLastPartial(fields[..n]);
      assert fields == fields[..n] + [fields[n]];
      SeeAllPartialThen(NoPartial, fields[..n], fields[n]);
    }
  }

  lemma {:induction false} SeeAllPartialThen(p: AsrPartial, fields: seq<W.Field>, last: W.Field)
    ensures SeeAllPartial(p, fields + [last]) == SeePartial(SeeAllPartial(p, fields), last)
    decreases |fields|
  {
    if fields == [] {
      assert ([] + [last])[1..] == [];
    } else {
      assert (fields + [last])[0] == fields[0] && (fields + [last])[1..] == fields[1..] + [last];
      SeeAllPartialThen(SeePartial(p, fields[0]), fields[1..], last);
    }
  }

  lemma {:induction false} SeesLast(fields: seq<W.Field>, utf8: Utf8, usize: nat)
    requires W.UsizeRange(usize)
    ensures SeeAll(NoEvent, fields, utf8, usize) == EventOf(fields, utf8, usize)
    decreases |fields|
  {
    if fields != [] {
      var n := |fields| - 1;
      var seen, last := SeeAll(NoEvent, fields[..n], utf8, usize), fields[n];
      SeesLast(fields[..n], utf8, usize);
      assert fields == fields[..n] + [last];
      SeeAllThen(NoEvent, fields[..n], [last], utf8, usize);
      assert SeeAll(seen, [last], utf8, usize) == See(seen, last, utf8, usize);
    }
  }

  /** Whatever bytes parse, in whatever order and however often: of each number the last field counts. */
  lemma LastFieldWins(buf: W.Bytes, utf8: Utf8, usize: nat)
    requires W.UsizeRange(usize)
    ensures DecodeDownward(buf, utf8, usize) ==
            match W.Parse(buf, usize)
            case Err(_) => None
            case Ok(fields) => Some(EventOf(fields, utf8, usize))
    ensures DecodeAsrPartial(buf, usize) ==
            match W.Parse(buf, usize)
            case Err(_) => None
            case Ok(fields) => Some(PartialOf(fields))
  {
    if W.Parse(buf, usize).Ok? {
      SeesLast(W.Parse(buf, usize).value, utf8, usize);
      SeesLastPartial(W.Parse(buf, usize).value);
    }
  }

  predicate AllPlain(fields: seq<W.Sendable>, usize: nat) {
    forall i | 0 <= i < |fields| :: Plain(fields[i], usize)
  }

  /** After input that parses, more input overrides: the event is that of both field lists, or of none. */
  lemma DownwardConcatenates(a: W.Bytes, b: W.Bytes, utf8: Utf8, usize: nat)
    requires W.UsizeRange(usize) && W.Parse(a, usize).Ok?
    ensures DecodeDownward(a, utf8, usize).Some?
    ensures DecodeDownward(a + b, utf8, usize) ==
            match W.Parse(b, usize)
            case Err(_) => None
            case Ok(more) => Some(EventOf(W.Parse(a, usize).value + more, utf8, usize))
    ensures W.Parse(b, usize).Ok? ==>
              DecodeDownward(a + b, utf8, usize) ==
              Some(SeeAll(DecodeDownward(a, utf8, usize).value, W.Parse(b, usize).value, utf8, usize))
  {
    ParseDistributes(a, b, usize);
    LastFieldWins(a + b, utf8, usize);
    if W.Parse(b, usize).Ok? {
      SeeAllThen(NoEvent, W.Parse(a, usize).value, W.Parse(b, usize).value, utf8, usize);
    }
  }

  /** A downlink built in two parts decodes to the event of all its fields. */
  lemma PartsMakeOneDownlink(a: seq<W.Sendable>, b: seq<W.Sendable>, utf8: Utf8, usize: nat)
    requires W.UsizeRange(usize) && AllPlain(a + b, usize)
    ensures DecodeDownward(W.MessageOf(a) + W.MessageOf(b), utf8, usize) == Some(EventOf(a + b, utf8, usize))
  {
    MessagesConcatenate(a, b);
    PlainParses(a + b, usize);
    LastFieldWins(W.MessageOf(a + b), utf8, usize);
  }

  /**
   A speech message built of any fields, around a downlink built of any fields, around a
   partial result built of any fields, decodes to the last field of each number inside.
   */
  lemma DownlinkRoundTrip(outer: seq<W.Sendable>, fields: seq<W.Sendable>, partial: seq<W.Sendable>, utf8: Utf8, usize: nat)
    requires W.UsizeRange(usize) && AllPlain(outer, usize) && AllPlain(fields, usize) && AllPlain(partial, usize)
    requires FirstVarint(outer, 1) == Some(1)
    requires FirstBytes(outer, 3) == Some(W.MessageOf(fields))
    requires LastBytes(fields, 5) == Some(W.MessageOf(partial))
    ensures DecodeSpeechDownward(W.MessageOf(outer), utf8, usize) ==
            Some(DownEvent(LastVarint(fields, 1), TextOf(LastBytes(fields, 2), utf8),
                           TextOf(LastBytes(fields, 7), utf8), Some(PartialOf(partial))))
  {
    PlainParses(outer, usize);
    PlainParses(fields, usize);
    PlainParses(partial, usize);
    LastFieldWins(W.MessageOf(fields), utf8, usize);
    LastFieldWins(W.MessageOf(partial), utf8, usize);
  }

  /** A speech message is taken exactly if its first type is downward, it holds a downlink, and that parses. */
  lemma SpeechIsTakenIff(outer: seq<W.Sendable>, utf8: Utf8, usize: nat)
    requires W.UsizeRange(usize) && AllPlain(outer, usize)
    ensures DecodeSpeechDownward(W.MessageOf(outer), utf8, usize).Some? <==>
            && FirstVarint(outer, 1) == Some(1)
            && FirstBytes(outer, 3).Some?
            && W.Parse(FirstBytes(outer, 3).value, usize).Ok?
  {
    PlainParses(outer, usize);
  }

  // ---- First and last, by place --------------------------------------------

  predicate IsVarint(f: W.Field, number: nat) { f.VarintField? && f.number == number }

  predicate IsBytes(f: W.Field, number: nat) { f.BytesField? && f.number == number }

  /** The first field of a number and kind is the one that no other precedes; there is none if there is none. */
  lemma {:induction false} FirstIs(fields: seq<W.Field>, number: nat)
    ensures forall i | 0 <= i < |fields| && IsVarint(fields[i], number) &&
                       (forall j | 0 <= j < i :: !IsVarint(fields[j], number)) ::
              FirstVarint(fields, number) == Some(fields[i].value)
    ensures FirstVarint(fields, number).None? <==> forall i | 0 <= i < |fields| :: !IsVarint(fields[i], number)
    ensures forall i | 0 <= i < |fields| && IsBytes(fields[i], number) &&
                       (forall j | 0 <= j < i :: !IsBytes(fields[j], number)) ::
              FirstBytes(fields, number) == Some(fields[i].bytes)
    ensures FirstBytes(fields, number).None? <==> forall i | 0 <= i < |fields| :: !IsBytes(fields[i], number)
    decreases |fields|
  {
    if fields != [] {
      var rest := fields[1..];
      FirstIs(rest, number);
      assert forall i | 1 <= i < |fields| :: fields[i] == rest[i - 1];
    }
  }

  /** The last one is the one that no other follows. */
  lemma {:induction false} LastIs(fields: seq<W.Field>, number: nat)
    ensures forall i | 0 <= i < |fields| && IsVarint(fields[i], number) &&
                       (forall j | i < j < |fields| :: !IsVarint(fields[j], number)) ::
              LastVarint(fields, number) == Some(fields[i].value)
    ensures LastVarint(fields, number).None? <==> forall i | 0 <= i < |fields| :: !IsVarint(fields[i], number)
    ensures forall i | 0 <= i < |fields| && IsBytes(fields[i], number) &&
                       (forall j | i < j < |fields| :: !IsBytes(fields[j], number)) ::
              LastBytes(fields, number) == Some(fields[i].bytes)
    ensures LastBytes(fields, number).None? <==> forall i | 0 <= i < |fields| :: !IsBytes(fields[i], number)
    decreases |fields|
  {
    if fields != [] {
      var rest := fields[..|fields| - 1];
      LastIs(rest, number);
      assert forall i | 0 <= i < |fields| - 1 :: fields[i] == rest[i];
    }
  }
}
