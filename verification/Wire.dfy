/**
 The protobuf wire format as the probe writes and reads it (Protocol Buffers encoding,
 sections "Base 128 Varints" and "Message Structure"), as functions on byte strings.
 */
module Wire {
  import opened Options

  type Byte = x: int | 0 <= x < 0x100
  type Bytes = seq<Byte>
  type U64 = x: int | 0 <= x < TwoTo64

  const TwoTo61: int := 0x2000_0000_0000_0000
  const TwoTo64: int := 0x1_0000_0000_0000_0000

  datatype Error =
    | TruncatedVarint
    | VarintTooLong
    | TruncatedFixed64
    | TruncatedBytes
    | TruncatedFixed32
    | UnsupportedWire(wire: nat)

  /** A decoded value and the input after it. */
  datatype Taken<+T> = Taken(value: T, rest: Bytes)

  // ---- Varints -------------------------------------------------------------

  /** Groups of seven bits, lowest first; all but the last carry the continuation bit. */
  function Varint(value: nat): (out: Bytes)
    ensures out != []
  {
    if value < 0x80 then [value] else [value % 0x80 + 0x80] + Varint(value / 0x80)
  }

  /** One more than the largest number that `room` groups spell, the last of them cut to one bit. */
  function Limit(room: nat): (l: nat)
    ensures l > 0 && (room > 0 ==> l >= 2)
  {
    if room == 0 then 1 else if room == 1 then 2 else 0x80 * Limit(room - 1)
  }

  /**
   The number spelled by the groups at the front of `buf`, at most `room` of them. The
   last one allowed keeps only its lowest bit: the others are shifted out.
   */
  function Groups(buf: Bytes, room: nat): (r: Result<Taken<nat>, Error>)
    ensures r.Ok? ==> |r.value.rest| < |buf|
    decreases room
  {
    if room == 0 then Err(VarintTooLong)
    else if buf == [] then Err(TruncatedVarint)
    else if buf[0] < 0x80 then Ok(Taken(if room == 1 then buf[0] % 2 else buf[0], buf[1..]))
    else
      match Groups(buf[1..], room - 1)
      case Err(e) => Err(e)
      case Ok(more) => Ok(Taken(buf[0] - 0x80 + 0x80 * more.value, more.rest))
  }

  lemma {:induction false} GroupsBelow(buf: Bytes, room: nat)
    requires Groups(buf, room).Ok?
    ensures Groups(buf, room).value.value < Limit(room)
    decreases room
  {
    if buf[0] >= 0x80 {
      GroupsBelow(buf[1..], room - 1);
    }
  }

  /** Sixty-four bits are ten groups. */
  function TakeVarint(buf: Bytes): (r: Result<Taken<U64>, Error>)
    ensures r.Ok? ==> |r.value.rest| < |buf|
  {
    match Groups(buf, 10)
    case Err(e) => Err(e)
    case Ok(t) =>
      GroupsBelow(buf, 10);
      Ok(Taken(t.value, t.rest))
  }

  // ---- Fields --------------------------------------------------------------

  datatype Field =
    | VarintField(number: U64, value: U64)
    | Fixed64Field(number: U64, eight: Bytes)
    | BytesField(number: U64, bytes: Bytes)
    | Fixed32Field(number: U64, four: Bytes)

  /** `number << 3` loses the top three bits. */
  function Key(number: U64, wire: nat): U64
    requires wire < 8
  {
    number % TwoTo61 * 8 + wire
  }

  /** The two kinds of field the probe sends. */
  type Sendable = f: Field | f.VarintField? || (f.BytesField? && |f.bytes| < TwoTo64)
    witness VarintField(0, 0)

  function FieldBytes(f: Sendable): Bytes {
    match f
    case VarintField(number, value) => Varint(Key(number, 0)) + Varint(value)
    case BytesField(number, bytes) => Varint(Key(number, 2)) + Varint(|bytes|) + bytes
  }

  function MessageOf(fields: seq<Sendable>): Bytes {
    if fields == [] then [] else FieldBytes(fields[0]) + MessageOf(fields[1..])
  }

  /** `size` bytes, or the error. */
  function TakeBytes(buf: Bytes, size: nat, error: Error): (r: Result<Taken<Bytes>, Error>)
    ensures r.Ok? ==> |r.value.rest| <= |buf|
  {
    if |buf| < size then Err(error) else Ok(Taken(buf[..size], buf[size..]))
  }

  /** The number of values a `usize` takes on the target: two to the 32 or to the 64. */
  predicate UsizeRange(usize: nat) { usize == 0x1_0000_0000 || usize == TwoTo64 }

  /** One field, on a target whose lengths wrap at `usize`. */
  function TakeField(buf: Bytes, usize: nat): (r: Result<Taken<Field>, Error>)
    requires UsizeRange(usize)
    ensures r.Ok? ==> |r.value.rest| < |buf|
  {
    match TakeVarint(buf)
    case Err(e) => Err(e)
    case Ok(key) => TakeBody(key.value / 8, key.value % 8, key.rest, usize)
  }

  function TakeBody(number: U64, wire: nat, buf: Bytes, usize: nat): (r: Result<Taken<Field>, Error>)
    requires UsizeRange(usize)
    ensures r.Ok? ==> |r.value.rest| <= |buf|
  {
    match wire
    case 0 =>
      (match TakeVarint(buf)
       case Err(e) => Err(e)
       case Ok(t) => Ok(Taken(VarintField(number, t.value), t.rest)))
    case 1 =>
      (match TakeBytes(buf, 8, TruncatedFixed64)
       case Err(e) => Err(e)
       case Ok(t) => Ok(Taken(Fixed64Field(number, t.value), t.rest)))
    case 2 =>
      (match TakeVarint(buf)
       case Err(e) => Err(e)
       case Ok(len) =>
         match TakeBytes(len.rest, len.value % usize, TruncatedBytes)
         case Err(e) => Err(e)
         case Ok(t) => Ok(Taken(BytesField(number, t.value), t.rest)))
    case 5 =>
      (match TakeBytes(buf, 4, TruncatedFixed32)
       case Err(e) => Err(e)
       case Ok(t) => Ok(Taken(Fixed32Field(number, t.value), t.rest)))
    case _ => Err(UnsupportedWire(wire))
  }

  function Parse(buf: Bytes, usize: nat): Result<seq<Field>, Error>
    requires UsizeRange(usize)
    decreases |buf|
  {
    if buf == [] then Ok([])
    else
      match TakeField(buf, usize)
      case Err(e) => Err(e)
      case Ok(t) =>
        match Parse(t.rest, usize)
        case Err(e) => Err(e)
        case Ok(more) => Ok([t.value] + more)
  }
}
