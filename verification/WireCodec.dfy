/**
 The probe's codec as the source writes it: a buffer that grows while a value is
 shifted down, a cursor that moves through the input. Shifts and masks are written as
 arithmetic; the bits joined by an or are disjoint, so the or is a sum.
 */
module WireCodec {
  import opened Options
  import W = Wire
  import opened WireTheorems
  import D = Downlink

  method EncodeVarint(value: W.U64, buffer: W.Bytes) returns (out: W.Bytes)
    ensures out == buffer + W.Varint(value)
  {
    var left := value;
    out := buffer;
    while left >= 0x80
      invariant out + W.Varint(left) == buffer + W.Varint(value)
      decreases left
    {
      out := out + [left % 0x80 + 0x80];
      left := left / 0x80;
    }
    out := out + [left];
  }

  /** A number in the place of the `k`th group. */
  function Weighted(n: nat, k: nat): nat { if k == 0 then n else 0x80 * Weighted(n, k - 1) }

  /** A group shifted left to its place in sixty-four bits: of the tenth only the lowest bit stays. */
  function Shifted(low: nat, k: nat): nat { Weighted(if k == 9 then low % 2 else low, k) }

  lemma {:induction false} WeightsAdd(low: nat, more: nat, k: nat)
    ensures Weighted(low + 0x80 * more, k) == Weighted(low, k) + Weighted(more, k + 1)
  {
    if k > 0 {
      WeightsAdd(low, more, k - 1);
    }
  }

  lemma {:induction false} WeightBelow(low: nat, bound: nat, k: nat)
    requires low < bound
    ensures Weighted(low, k) + Weighted(1, k) <= Weighted(bound, k)
  {
    if k > 0 {
      WeightBelow(low, bound, k - 1);
    }
  }

  /** One more than the largest number of `k` groups. */
  function Room(k: nat): nat { if k < 10 then Weighted(1, k) else W.TwoTo64 }

  lemma Rooms(k: nat)
    requires k < 10
    ensures Weighted(if k == 9 then 2 else 0x80, k) <= Room(k + 1)
  {
    if k == 9 {
      assert Weighted(2, 3) == 0x40_0000;
      assert Weighted(2, 6) == 0x80 * (0x80 * (0x80 * Weighted(2, 3)));
      assert Weighted(2, 9) == 0x80 * (0x80 * (0x80 * Weighted(2, 6)));
    } else {
      WeightsAdd(0, 1, k);
      ZeroWeighs(k);
    }
  }

  lemma {:induction false} ZeroWeighs(k: nat)
    ensures Weighted(0, k) == 0
  {
    if k > 0 {
      ZeroWeighs(k - 1);
    }
  }

  lemma {:induction false} RoomFits(k: nat)
    requires k <= 10
    ensures Room(k) <= W.TwoTo64
    decreases 10 - k
  {
    if k < 10 {
      Rooms(k);
      WeightBelow(1, if k == 9 then 2 else 0x80, k);
      RoomFits(k + 1);
    }
  }

  /** The new group's bits are disjoint from the others. */
  lemma JoinGroup(value: nat, low: nat, k: nat)
    requires k < 10 && low < 0x80 && value < Room(k)
    ensures value + Shifted(low, k) < Room(k + 1) <= W.TwoTo64
  {
    RoomFits(k + 1);
    if k == 9 {
      WeightBelow(low % 2, 2, k);
    } else {
      WeightBelow(low, 0x80, k);
    }
    Rooms(k);
  }

  /** A number whose groups from the `k`th on are still to be read. */
  ghost function Spelled(value: nat, k: nat, more: Result<W.Taken<nat>, W.Error>): Result<W.Taken<nat>, W.Error> {
    if more.Err? then more else Ok(W.Taken(value + Weighted(more.value.value, k), more.value.rest))
  }

  /** A group with the continuation bit is one more place. */
  lemma GoesOn(value: nat, k: nat, rest: W.Bytes)
    requires k < 10 && rest != [] && rest[0] >= 0x80
    ensures Spelled(value, k, W.Groups(rest, 10 - k)) ==
            Spelled(value + Shifted(rest[0] - 0x80, k), k + 1, W.Groups(rest[1..], 9 - k))
  {
    var more := W.Groups(rest[1..], 9 - k);
    if more.Ok? {
      WeightsAdd(rest[0] - 0x80, more.value.value, k);
    }
  }

  /** The byte without its continuation bit. */
  function LowBits(byte: W.Byte): (low: nat)
    ensures low < 0x80
  {
    if byte < 0x80 then byte else byte - 0x80
  }

  /** What the loop will return from this state. */
  function Decoded(value: nat, k: nat, rest: W.Bytes): Result<W.Taken<nat>, W.Error>
    requires k <= 10
    decreases 10 - k
  {
    if k == 10 then Err(W.VarintTooLong)
    else if rest == [] then Err(W.TruncatedVarint)
    else if rest[0] < 0x80 then Ok(W.Taken(value + Shifted(rest[0], k), rest[1..]))
    else Decoded(value + Shifted(rest[0] - 0x80, k), k + 1, rest[1..])
  }

  lemma {:induction false} DecodedIsSpelled(value: nat, k: nat, rest: W.Bytes)
    requires k <= 10
    ensures Decoded(value, k, rest) == Spelled(value, k, W.Groups(rest, 10 - k))
    decreases 10 - k
  {
    if k == 10 {
      assert W.Groups(rest, 0) == Err(W.VarintTooLong);
    } else if rest != [] && rest[0] < 0x80 {
    } else if rest != [] {
      GoesOn(value, k, rest);
      DecodedIsSpelled(value + Shifted(rest[0] - 0x80, k), k + 1, rest[1..]);
    }
  }

  /** Sixty-four bits hold whatever the loop returns. */
  function Narrow(r: Result<W.Taken<nat>, W.Error>): Result<W.Taken<W.U64>, W.Error>
    requires r.Ok? ==> r.value.value < W.TwoTo64
  {
    if r.Err? then Err(r.error) else Ok(W.Taken(r.value.value, r.value.rest))
  }

  lemma {:induction false} DecodedFits(value: nat, k: nat, rest: W.Bytes)
    requires k <= 10 && value < Room(k)
    ensures Decoded(value, k, rest).Ok? ==> Decoded(value, k, rest).value.value < W.TwoTo64
    decreases 10 - k
  {
    if k < 10 && rest != [] {
      if rest[0] < 0x80 {
        JoinGroup(value, rest[0], k);
      } else {
        JoinGroup(value, rest[0] - 0x80, k);
        DecodedFits(value + Shifted(rest[0] - 0x80, k), k + 1, rest[1..]);
      }
    }
  }

  lemma DecodedIsVarint(buf: W.Bytes)
    ensures Decoded(0, 0, buf).Ok? ==> Decoded(0, 0, buf).value.value < W.TwoTo64
    ensures Narrow(Decoded(0, 0, buf)) == W.TakeVarint(buf)
  {
    DecodedFits(0, 0, buf);
    DecodedIsSpelled(0, 0, buf);
  }

  method DecodeVarint(buf: W.Bytes) returns (r: Result<W.Taken<W.U64>, W.Error>)
    ensures r == W.TakeVarint(buf)
  {
    var value: nat, rest := 0, buf;
    var k := 0;
    DecodedIsVarint(buf);
    while k < 10
      invariant k <= 10
      invariant Decoded(value, k, rest) == Decoded(0, 0, buf)
    {
      if rest == [] {
        return Err(W.TruncatedVarint);
      }
      var byte := rest[0];
      value := value + Shifted(LowBits(byte), k);
      rest := rest[1..];
      if byte < 0x80 {
        return Ok(W.Taken(value, rest));
      }
      k := k + 1;
    }
    r := Err(W.VarintTooLong);
  }

  // ---- Building messages ---------------------------------------------------

  method EncodeVarintField(number: W.U64, value: W.U64) returns (out: W.Bytes)
    ensures out == W.FieldBytes(W.VarintField(number, value))
  {
    out := EncodeVarint(W.Key(number, 0), []);
    out := EncodeVarint(value, out);
  }

  method EncodeBytesField(number: W.U64, bytes: W.Bytes) returns (out: W.Bytes)
    requires |bytes| < W.TwoTo64
    ensures out == W.FieldBytes(W.BytesField(number, bytes))
  {
    out := EncodeVarint(W.Key(number, 2), []);
    out := EncodeVarint(|bytes|, out);
    assert out == W.Varint(W.Key(number, 2)) + W.Varint(|bytes|);
    out := out + bytes;
  }

  /** The parts of a message, one per field, one after the other. */
  method Message(parts: seq<W.Bytes>, ghost fields: seq<W.Sendable>) returns (out: W.Bytes)
    requires |parts| == |fields| && forall i | 0 <= i < |parts| :: parts[i] == W.FieldBytes(fields[i])
    ensures out == W.MessageOf(fields)
  {
    out := [];
    var i := 0;
    while i < |parts|
      invariant i <= |parts| && out + W.MessageOf(fields[i..]) == W.MessageOf(fields)
    {
      assert fields[i..][1..] == fields[i + 1..];
      assert out + (W.FieldBytes(fields[i]) + W.MessageOf(fields[i + 1..])) ==
             out + W.FieldBytes(fields[i]) + W.MessageOf(fields[i + 1..]);
      out := out + parts[i];
      i := i + 1;
    }
  }

  /** A message from its fields: one encoded part each, then all of them joined. */
  method BuildMessage(fields: seq<W.Sendable>) returns (out: W.Bytes)
    ensures out == W.MessageOf(fields)
  {
    var parts := [];
    for i := 0 to |fields|
      invariant |parts| == i && forall k | 0 <= k < i :: parts[k] == W.FieldBytes(fields[k])
    {
      var part;
      match fields[i] {
        case VarintField(number, value) => part := EncodeVarintField(number, value);
        case BytesField(number, bytes) => part := EncodeBytesField(number, bytes);
      }
      parts := parts + [part];
    }
    out := Message(parts, fields);
  }

  // ---- Reading messages ----------------------------------------------------

  method ParseField(buf: W.Bytes, usize: nat) returns (r: Result<W.Taken<W.Field>, W.Error>)
    requires W.UsizeRange(usize)
    ensures r == W.TakeField(buf, usize)
  {
    var key := DecodeVarint(buf);
    if key.Err? {
      return Err(key.error);
    }
    var number, wire, rest := key.value.value / 8, key.value.value % 8, key.value.rest;
    match wire {
      case 0 =>
        var value := DecodeVarint(rest);
        r := if value.Err? then Err(value.error)
             else Ok(W.Taken(W.VarintField(number, value.value.value), value.value.rest));
      case 1 =>
        if |rest| < 8 {
          return Err(W.TruncatedFixed64);
        }
        r := Ok(W.Taken(W.Fixed64Field(number, rest[..8]), rest[8..]));
      case 2 =>
        var len := DecodeVarint(rest);
        if len.Err? {
          return Err(len.error);
        }
        r := ParseBytes(number, len.value.value % usize, len.value.rest);
      case 5 =>
        if |rest| < 4 {
          return Err(W.TruncatedFixed32);
        }
        r := Ok(W.Taken(W.Fixed32Field(number, rest[..4]), rest[4..]));
      case _ => r := Err(W.UnsupportedWire(wire));
    }
  }

  method ParseBytes(number: W.U64, len: nat, buf: W.Bytes) returns (r: Result<W.Taken<W.Field>, W.Error>)
    ensures r == match W.TakeBytes(buf, len, W.TruncatedBytes)
                 case Err(e) => Err(e)
                 case Ok(t) => Ok(W.Taken(W.BytesField(number, t.value), t.rest))
  {
    if |buf| < len {
      return Err(W.TruncatedBytes);
    }
    r := Ok(W.Taken(W.BytesField(number, buf[..len]), buf[len..]));
  }

  method ParseFields(buf: W.Bytes, usize: nat) returns (r: Result<seq<W.Field>, W.Error>)
    requires W.UsizeRange(usize)
    ensures r == W.Parse(buf, usize)
  {
    var fields: seq<W.Field>, rest := [], buf;
    JoinedNothing(W.Parse(buf, usize));
    while rest != []
      invariant W.Parse(buf, usize) == Joined(Ok(fields), W.Parse(rest, usize))
      decreases |rest|
    {
      var t := ParseField(rest, usize);
      if t.Err? {
        return Err(t.error);
      }
      ParseStep(rest, usize);
      JoinedLater(fields, t.value.value, W.Parse(t.value.rest, usize));
      fields := fields + [t.value.value];
      rest := t.value.rest;
    }
    assert fields + [] == fields;
    r := Ok(fields);
  }

  lemma JoinedNothing(r: Result<seq<W.Field>, W.Error>)
    ensures Joined(Ok([]), r) == r
  {
    if r.Ok? {
      assert [] + r.value == r.value;
    }
  }

  lemma JoinedLater(a: seq<W.Field>, f: W.Field, c: Result<seq<W.Field>, W.Error>)
    ensures Joined(Ok(a), Joined(Ok([f]), c)) == Joined(Ok(a + [f]), c)
  {
    if c.Ok? {
      assert a + ([f] + c.value) == a + [f] + c.value;
    }
  }

  method DecodeAsrPartial(buf: W.Bytes, usize: nat) returns (r: Option<D.AsrPartial>)
    requires W.UsizeRange(usize)
    ensures r == D.DecodeAsrPartial(buf, usize)
  {
    var parsed := ParseFields(buf, usize);
    if parsed.Err? {
      return None;
    }
    var partial, i := D.NoPartial, 0;
    while i < |parsed.value|
      invariant i <= |parsed.value|
      invariant D.SeeAllPartial(partial, parsed.value[i..]) == D.SeeAllPartial(D.NoPartial, parsed.value)
    {
      assert parsed.value[i..][1..] == parsed.value[i + 1..];
      match parsed.value[i] {
        case VarintField(1, value) => partial := partial.(isFinal := value != 0);
        case VarintField(2, value) => partial := partial.(length := Some(value));
        case _ =>
      }
      i := i + 1;
    }
    r := Some(partial);
  }

  /** One field of a downlink. */
  method SeeField(event: D.DownEvent, field: W.Field, utf8: D.Utf8, usize: nat) returns (after: D.DownEvent)
    requires W.UsizeRange(usize)
    ensures after == D.See(event, field, utf8, usize)
  {
    after := event;
    match field {
      case VarintField(1, value) => after := event.(downType := Some(value));
      case BytesField(2, bytes) => after := event.(dialogId := utf8(bytes));
      case BytesField(5, bytes) =>
        var partial := DecodeAsrPartial(bytes, usize);
        after := event.(asrPartial := partial);
      case BytesField(7, bytes) => after := event.(transactionId := utf8(bytes));
      case _ =>
    }
  }

  method DecodeDownward(buf: W.Bytes, utf8: D.Utf8, usize: nat) returns (r: Option<D.DownEvent>)
    requires W.UsizeRange(usize)
    ensures r == D.DecodeDownward(buf, utf8, usize)
    ensures r == match W.Parse(buf, usize)
                 case Err(_) => None
                 case Ok(fields) => Some(D.EventOf(fields, utf8, usize))
  {
    D.LastFieldWins(buf, utf8, usize);
    var parsed := ParseFields(buf, usize);
    if parsed.Err? {
      return None;
    }
    var fields := parsed.value;
    var event, i := D.NoEvent, 0;
    assert fields[0..] == fields;
    while i < |fields|
      invariant i <= |fields|
      invariant D.SeeAll(event, fields[i..], utf8, usize) == D.SeeAll(D.NoEvent, fields, utf8, usize)
    {
      event := SeeField(event, fields[i], utf8, usize);
      i := i + 1;
    }
    r := Some(event);
  }
}
