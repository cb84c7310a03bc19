/** What the parser makes of any bytes: the number a varint spells, every kind of field, and each error. */
module WireErrors {
  import opened Options
  import opened Chunks
  import opened Wire
  import opened WireTheorems

  // ---- Varints -------------------------------------------------------------

  ghost function Power(n: nat): nat { if n == 0 then 1 else 0x80 * Power(n - 1) }

  /** The bits that byte `i` of a varint contributes: seven, but only one in the last place allowed. */
  ghost function Digit(buf: Bytes, i: nat, room: nat): nat
    requires i < |buf|
  {
    if i + 1 == room then buf[i] % 2 else buf[i] % 0x80
  }

  /** The number that the first `n` bytes spell, least significant first. */
  ghost function Sum(buf: Bytes, n: nat, room: nat): nat
    requires n <= |buf|
  {
    if n == 0 then 0 else Sum(buf, n - 1, room) + Digit(buf, n - 1, room) * Power(n - 1)
  }

  lemma {:induction false} SumShifts(buf: Bytes, n: nat, room: nat)
    requires 0 < n <= |buf| && n <= room
    ensures Sum(buf, n, room) == Digit(buf, 0, room) + 0x80 * Sum(buf[1..], n - 1, room - 1)
    decreases n
  {
    if n > 1 {
      SumShifts(buf, n - 1, room);
      DigitShifts(buf, n, room);
    } else {
      assert Power(0) == 1 && Sum(buf, 0, room) == 0 && Sum(buf[1..], 0, room - 1) == 0;
    }
  }

  lemma DigitShifts(buf: Bytes, n: nat, room: nat)
    requires 1 < n <= |buf| && n <= room
    ensures Digit(buf, n - 1, room) * Power(n - 1) == 0x80 * (Digit(buf[1..], n - 2, room - 1) * Power(n - 2))
  {
    var d, p := Digit(buf, n - 1, room), Power(n - 2);
    assert d == Digit(buf[1..], n - 2, room - 1) && Power(n - 1) == 0x80 * p;
    assert d * (0x80 * p) == 0x80 * (d * p);
  }

  /** Every byte but the last one read asks for another; the value is the sum of their digits. */
  lemma {:induction false} GroupsSum(buf: Bytes, room: nat)
    requires Groups(buf, room).Ok?
    ensures Used(buf, room) <= room && Groups(buf, room).value.value == Sum(buf, Used(buf, room), room)
    ensures buf[Used(buf, room) - 1] < 0x80 && forall i | 0 <= i < Used(buf, room) - 1 :: buf[i] >= 0x80
    decreases room
  {
    UsedIsRead(buf, room);
    SumShifts(buf, Used(buf, room), room);
    if buf[0] >= 0x80 {
      GroupsSum(buf[1..], room - 1);
      assert forall i | 1 <= i < Used(buf, room) :: buf[i] == buf[1..][i - 1];
    } else {
      assert Sum(buf[1..], 0, room - 1) == 0;
    }
  }

  /** The first ten bytes all ask for another. */
  predicate Endless(buf: Bytes, room: nat) { forall i | 0 <= i < |buf| && i < room :: buf[i] >= 0x80 }

  lemma {:induction false} GroupsFailIff(buf: Bytes, room: nat)
    ensures Groups(buf, room) == Err(VarintTooLong) <==> Endless(buf, room) && |buf| >= room
    ensures Groups(buf, room) == Err(TruncatedVarint) <==> Endless(buf, room) && |buf| < room
    ensures Groups(buf, room).Ok? <==> !Endless(buf, room)
    decreases room
  {
    if room > 0 && buf != [] {
      GroupsFailIff(buf[1..], room - 1);
      if buf[0] >= 0x80 {
        EndlessTail(buf, room);
      }
    }
  }

  lemma EndlessTail(buf: Bytes, room: nat)
    requires room > 0 && buf != [] && buf[0] >= 0x80
    ensures Endless(buf[1..], room - 1) <==> Endless(buf, room)
  {
    if Endless(buf[1..], room - 1) {
      forall i | 0 <= i < |buf| && i < room ensures buf[i] >= 0x80 {
        assert i > 0 ==> buf[i] == buf[1..][i - 1];
      }
    }
  }

  /** A varint is the sum of its seven-bit digits; none ends within ten bytes or the input is too short. */
  lemma VarintIs(buf: Bytes)
    ensures TakeVarint(buf).Ok? ==>
              var used := Used(buf, 10);
              && used <= 10 && TakeVarint(buf).value == Taken(Sum(buf, used, 10), buf[used..])
              && buf[used - 1] < 0x80 && forall i | 0 <= i < used - 1 :: buf[i] >= 0x80
    ensures TakeVarint(buf) == Err(VarintTooLong) <==> Endless(buf, 10) && |buf| >= 10
    ensures TakeVarint(buf) == Err(TruncatedVarint) <==> Endless(buf, 10) && |buf| < 10
    ensures TakeVarint(buf).Ok? <==> !Endless(buf, 10)
  {
    GroupsFailIff(buf, 10);
    if TakeVarint(buf).Ok? {
      GroupsSum(buf, 10);
      UsedIsRead(buf, 10);
    }
  }

  // ---- Fields of every kind ------------------------------------------------

  /** A field a message can hold. */
  predicate WellFormed(f: Field, usize: nat) {
    && f.number < TwoTo61
    && (f.Fixed64Field? ==> |f.eight| == 8)
    && (f.Fixed32Field? ==> |f.four| == 4)
    && (f.BytesField? ==> |f.bytes| < usize)
  }

  function WireOf(f: Field): nat {
    match f
    case VarintField(_, _) => 0
    case Fixed64Field(_, _) => 1
    case BytesField(_, _) => 2
    case Fixed32Field(_, _) => 5
  }

  function Body(f: Field): Bytes {
    match f
    case VarintField(_, value) => Varint(value)
    case Fixed64Field(_, eight) => eight
    case BytesField(_, bytes) => Varint(|bytes|) + bytes
    case Fixed32Field(_, four) => four
  }

  /** A field as the format spells it. */
  function Spelled(f: Field): Bytes { Varint(Key(f.number, WireOf(f))) + Body(f) }

  function SpelledAll(fields: seq<Field>): Bytes {
    if fields == [] then [] else Spelled(fields[0]) + SpelledAll(fields[1..])
  }

  lemma BodyTaken(f: Field, rest: Bytes, usize: nat)
    requires UsizeRange(usize) && WellFormed(f, usize)
    ensures TakeBody(f.number, WireOf(f), Body(f) + rest, usize) == Ok(Taken(f, rest))
  {
    match f
    case VarintField(_, value) => VarintRoundTrip(value, rest);
    case Fixed64Field(_, eight) => assert (eight + rest)[..8] == eight && (eight + rest)[8..] == rest;
    case BytesField(number, bytes) =>
      assert Body(f) + rest == Varint(|bytes|) + (bytes + rest);
      BytesRoundTrip(number, bytes, rest, usize);
    case Fixed32Field(_, four) => assert (four + rest)[..4] == four && (four + rest)[4..] == rest;
  }

  lemma KeyTaken(number: U64, wire: nat, body: Bytes, usize: nat)
    requires UsizeRange(usize) && wire < 8 && number < TwoTo61
    ensures TakeField(Varint(Key(number, wire)) + body, usize) == TakeBody(number, wire, body, usize)
  {
    assert number % TwoTo61 == number;
    KeyRoundTrip(number, wire, body, usize);
  }

  lemma KeyAndBodyTaken(f: Field, wire: nat, body: Bytes, rest: Bytes, usize: nat)
    requires UsizeRange(usize) && wire < 8 && f.number < TwoTo61
    requires TakeBody(f.number, wire, body + rest, usize) == Ok(Taken(f, rest))
    ensures TakeField(Varint(Key(f.number, wire)) + body + rest, usize) == Ok(Taken(f, rest))
  {
    Associates(Varint(Key(f.number, wire)), body, rest);
    KeyTaken(f.number, wire, body + rest, usize);
  }

  lemma FieldTaken(f: Field, rest: Bytes, usize: nat)
    requires UsizeRange(usize) && WellFormed(f, usize)
    ensures TakeField(Spelled(f) + rest, usize) == Ok(Taken(f, rest))
  {
    BodyTaken(f, rest, usize);
    KeyAndBodyTaken(f, WireOf(f), Body(f), rest, usize);
  }

  /** A message of fields of every kind, fixed ones included, parses to those fields. */
  lemma {:induction false} EveryKindParses(fields: seq<Field>, usize: nat)
    requires UsizeRange(usize) && forall f | f in fields :: WellFormed(f, usize)
    ensures Parse(SpelledAll(fields), usize) == Ok(fields)
    decreases |fields|
  {
    if fields != [] {
      FieldTaken(fields[0], SpelledAll(fields[1..]), usize);
      EveryKindParses(fields[1..], usize);
      assert SpelledAll(fields) != [];
      ParseStep(SpelledAll(fields), usize);
      assert fields == [fields[0]] + fields[1..];
    }
  }

  // ---- Fields cut short ----------------------------------------------------

  lemma {:induction false} CutVarint(value: nat, k: nat, room: nat)
    requires value < Limit(room) && room > 0 && k < |Varint(value)|
    ensures Groups(Varint(value)[..k], room) == Err(TruncatedVarint)
    decreases value
  {
    if k > 0 {
      assert Varint(value)[..k][1..] == Varint(value / 0x80)[..k - 1];
      CutVarint(value / 0x80, k - 1, room - 1);
    }
  }

  /** The error that says where a body was cut. */
  function CutError(f: Field, kept: nat): Error {
    match f
    case VarintField(_, _) => TruncatedVarint
    case Fixed64Field(_, _) => TruncatedFixed64
    case BytesField(_, bytes) => if kept < |Varint(|bytes|)| then TruncatedVarint else TruncatedBytes
    case Fixed32Field(_, _) => TruncatedFixed32
  }

  lemma CutBody(f: Field, kept: nat, usize: nat)
    requires UsizeRange(usize) && WellFormed(f, usize) && kept < |Body(f)|
    ensures TakeBody(f.number, WireOf(f), Body(f)[..kept], usize) == Err(CutError(f, kept))
  {
    match f
    case VarintField(_, value) => CutVarint(value, kept, 10);
    case Fixed64Field(_, _) =>
    case BytesField(_, bytes) =>
      var len := Varint(|bytes|);
      if kept < |len| {
        assert Body(f)[..kept] == len[..kept];
        CutVarint(|bytes|, kept, 10);
      } else {
        assert Body(f)[..kept] == len + bytes[..kept - |len|];
        VarintRoundTrip(|bytes|, bytes[..kept - |len|]);
        LengthKept(|bytes|, usize);
      }
    case Fixed32Field(_, _) =>
  }

  /** A field cut short fails with the error of what was cut: its key, its length or its contents. */
  lemma CutField(f: Field, kept: nat, usize: nat)
    requires UsizeRange(usize) && WellFormed(f, usize) && 0 < kept < |Spelled(f)|
    ensures var key := |Varint(Key(f.number, WireOf(f)))|;
            TakeField(Spelled(f)[..kept], usize) ==
            Err(if kept < key then TruncatedVarint else CutError(f, kept - key))
  {
    var key := Varint(Key(f.number, WireOf(f)));
    if kept < |key| {
      assert Spelled(f)[..kept] == key[..kept];
      CutVarint(Key(f.number, WireOf(f)), kept, 10);
    } else {
      assert Spelled(f)[..kept] == key + Body(f)[..kept - |key|];
      KeyTaken(f.number, WireOf(f), Body(f)[..kept - |key|], usize);
      CutBody(f, kept - |key|, usize);
    }
  }

  /** So whatever precedes it, a message whose last field is cut short is rejected with that error. */
  lemma CutMessageFails(fields: seq<Field>, f: Field, kept: nat, usize: nat)
    requires UsizeRange(usize) && (forall g | g in fields :: WellFormed(g, usize)) && WellFormed(f, usize)
    requires 0 < kept < |Spelled(f)|
    ensures var key := |Varint(Key(f.number, WireOf(f)))|;
            Parse(SpelledAll(fields) + Spelled(f)[..kept], usize) ==
            Err(if kept < key then TruncatedVarint else CutError(f, kept - key))
  {
    EveryKindParses(fields, usize);
    CutField(f, kept, usize);
    ParseDistributes(SpelledAll(fields), Spelled(f)[..kept], usize);
  }

  /** The wire types in no use any more are refused by number, whatever follows. */
  lemma OtherWiresFail(fields: seq<Field>, number: U64, wire: nat, rest: Bytes, usize: nat)
    requires UsizeRange(usize) && (forall g | g in fields :: WellFormed(g, usize))
    requires wire == 3 || wire == 4 || wire == 6 || wire == 7
    ensures Parse(SpelledAll(fields) + (Varint(Key(number, wire)) + rest), usize) == Err(UnsupportedWire(wire))
  {
    EveryKindParses(fields, usize);
    KeyRoundTrip(number, wire, rest, usize);
    ParseDistributes(SpelledAll(fields), Varint(Key(number, wire)) + rest, usize);
  }
}
