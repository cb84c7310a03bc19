/** Round trips of the wire format: varints, fields, messages, and parsing piece by piece. */
module WireTheorems {
  import opened Options
  import opened Wire

  // ---- Varints -------------------------------------------------------------

  lemma {:induction false} GroupsOfVarint(value: nat, rest: Bytes, room: nat)
    requires value < Limit(room) && room > 0
    ensures |Varint(value)| <= room
    ensures Groups(Varint(value) + rest, room) == Ok(Taken(value, rest))
    decreases value
  {
    if value < 0x80 {
      assert ([value] + rest)[1..] == rest;
    } else {
      var tail := Varint(value / 0x80);
      assert (Varint(value) + rest)[1..] == tail + rest;
      GroupsOfVarint(value / 0x80, rest, room - 1);
    }
  }

  /** Decoding an encoded varint followed by anything gives the value and exactly what followed. */
  lemma VarintRoundTrip(value: U64, rest: Bytes)
    ensures |Varint(value)| <= 10
    ensures TakeVarint(Varint(value) + rest) == Ok(Taken(value, rest))
  {
    GroupsOfVarint(value, rest, 10);
  }

  /** Whatever follows a varint plays no part in reading it. */
  lemma {:induction false} GroupsFrame(a: Bytes, b: Bytes, room: nat)
    requires Groups(a, room).Ok?
    ensures Groups(a + b, room) == Ok(Taken(Groups(a, room).value.value, Groups(a, room).value.rest + b))
    decreases room
  {
    assert (a + b)[0] == a[0] && (a + b)[1..] == a[1..] + b;
    if a[0] >= 0x80 {
      GroupsFrame(a[1..], b, room - 1);
    }
  }

  /** How many bytes a varint was read from. */
  function Used(buf: Bytes, room: nat): (used: nat)
    requires Groups(buf, room).Ok?
    ensures 0 < used <= |buf|
  {
    |buf| - |Groups(buf, room).value.rest|
  }

  lemma {:induction false} UsedIsRead(buf: Bytes, room: nat)
    requires Groups(buf, room).Ok?
    ensures Used(buf, room) <= room && buf[Used(buf, room)..] == Groups(buf, room).value.rest
    ensures buf[0] >= 0x80 <==> Used(buf, room) > 1
    ensures buf[0] >= 0x80 ==> Used(buf[1..], room - 1) == Used(buf, room) - 1
    decreases room
  {
    if buf[0] >= 0x80 {
      UsedIsRead(buf[1..], room - 1);
    }
  }

  /** A group with more to come is canonical exactly if what follows is not zero and canonical. */
  lemma CanonicalStep(buf: Bytes, room: nat)
    requires Groups(buf, room).Ok? && buf[0] >= 0x80
    ensures var t, more := Groups(buf, room).value, Groups(buf[1..], room - 1).value;
            buf == Varint(t.value) + t.rest <==> more.value != 0 && buf[1..] == Varint(more.value) + more.rest
  {
    var t, more := Groups(buf, room).value, Groups(buf[1..], room - 1).value;
    if more.value == 0 {
      assert Varint(t.value) == [t.value];
    } else {
      assert Varint(t.value) == [buf[0]] + Varint(more.value);
      assert (Varint(t.value) + t.rest)[1..] == Varint(more.value) + more.rest;
      assert buf == [buf[0]] + buf[1..];
    }
  }

  /**
   The bytes a varint was read from are its encoding exactly when they do not end in an
   idle zero group and no bit of the last group allowed was shifted out.
   */
  lemma {:induction false} CanonicalIff(buf: Bytes, room: nat)
    requires Groups(buf, room).Ok?
    ensures var t, used := Groups(buf, room).value, Used(buf, room);
            && buf[used..] == t.rest
            && (buf == Varint(t.value) + t.rest <==>
                  (used == 1 || buf[used - 1] != 0) && (used == room ==> buf[used - 1] < 2))
    decreases room
  {
    UsedIsRead(buf, room);
    var used := Used(buf, room);
    if buf[0] < 0x80 {
      assert buf == [buf[0]] + buf[1..];
    } else {
      CanonicalStep(buf, room);
      CanonicalIff(buf[1..], room - 1);
      assert buf[used - 1] == buf[1..][used - 2];
      if Groups(buf[1..], room - 1).value.value == 0 {
        ZeroEnds(buf[1..], room - 1);
      } else if used == 2 {
        assert buf[1] != 0;
      }
    }
  }

  /** A varint worth zero ends in a zero group, or in one whose only bits were shifted out. */
  lemma {:induction false} ZeroEnds(buf: Bytes, room: nat)
    requires Groups(buf, room).Ok? && Groups(buf, room).value.value == 0
    ensures var used := Used(buf, room); buf[used - 1] == 0 || (used == room && buf[used - 1] >= 2)
    decreases room
  {
    UsedIsRead(buf, room);
    if buf[0] >= 0x80 {
      ZeroEnds(buf[1..], room - 1);
    }
  }

  // ---- Fields and messages -------------------------------------------------

  lemma TakeVarintFrame(a: Bytes, b: Bytes)
    requires TakeVarint(a).Ok?
    ensures TakeVarint(a + b) == Ok(Taken(TakeVarint(a).value.value, TakeVarint(a).value.rest + b))
  {
    GroupsFrame(a, b, 10);
  }

  lemma TakeBytesFrame(a: Bytes, b: Bytes, size: nat, error: Error)
    requires size <= |a|
    ensures TakeBytes(a + b, size, error) == Ok(Taken(a[..size], a[size..] + b))
  {
    assert (a + b)[..size] == a[..size] && (a + b)[size..] == a[size..] + b;
  }

  lemma TakeBodyFrame(number: U64, wire: nat, a: Bytes, b: Bytes, usize: nat)
    requires UsizeRange(usize) && TakeBody(number, wire, a, usize).Ok?
    ensures var t := TakeBody(number, wire, a, usize).value;
            TakeBody(number, wire, a + b, usize) == Ok(Taken(t.value, t.rest + b))
  {
    if wire == 0 {
      TakeVarintFrame(a, b);
    } else if wire == 1 {
      TakeBytesFrame(a, b, 8, TruncatedFixed64);
    } else if wire == 2 {
      TakeVarintFrame(a, b);
      var len := TakeVarint(a).value;
      TakeBytesFrame(len.rest, b, len.value % usize, TruncatedBytes);
    } else {
      TakeBytesFrame(a, b, 4, TruncatedFixed32);
    }
  }

  lemma TakeFieldFrame(a: Bytes, b: Bytes, usize: nat)
    requires UsizeRange(usize) && TakeField(a, usize).Ok?
    ensures var t := TakeField(a, usize).value; TakeField(a + b, usize) == Ok(Taken(t.value, t.rest + b))
  {
    TakeVarintFrame(a, b);
    var key := TakeVarint(a).value;
    TakeBodyFrame(key.value / 8, key.value % 8, key.rest, b, usize);
  }

  function Joined(first: Result<seq<Field>, Error>, second: Result<seq<Field>, Error>): Result<seq<Field>, Error>
  {
    if first.Err? then first else if second.Err? then second else Ok(first.value + second.value)
  }

  /** What is parsed first, whatever follows. */
  lemma ParseStep(buf: Bytes, usize: nat)
    requires UsizeRange(usize) && buf != [] && TakeField(buf, usize).Ok?
    ensures var t := TakeField(buf, usize).value;
            Parse(buf, usize) == Joined(Ok([t.value]), Parse(t.rest, usize))
  {
  }

  lemma JoinedThrice(f: Field, b: Result<seq<Field>, Error>, c: Result<seq<Field>, Error>)
    requires b.Ok?
    ensures Joined(Ok([f]), Joined(b, c)) == Joined(Joined(Ok([f]), b), c)
  {
    if c.Ok? {
      assert [f] + (b.value + c.value) == [f] + b.value + c.value;
    }
  }

  /** Parsing distributes over concatenation after any input that parses. */
  lemma {:induction false} ParseDistributes(a: Bytes, b: Bytes, usize: nat)
    requires UsizeRange(usize) && Parse(a, usize).Ok?
    ensures Parse(a + b, usize) == Joined(Parse(a, usize), Parse(b, usize))
    decreases |a|
  {
    if a == [] {
      assert a + b == b;
      assert Parse(b, usize).Ok? ==> [] + Parse(b, usize).value == Parse(b, usize).value;
    } else {
      var t := TakeField(a, usize).value;
      TakeFieldFrame(a, b, usize);
      ParseStep(a, usize);
      ParseStep(a + b, usize);
      ParseDistributes(t.rest, b, usize);
      JoinedThrice(t.value, Parse(t.rest, usize), Parse(b, usize));
    }
  }

  /** What the receiver makes of a field: the number keeps its low 61 bits. */
  function Received(f: Sendable): Sendable {
    match f
    case VarintField(number, value) => VarintField(number % TwoTo61, value)
    case BytesField(number, bytes) => BytesField(number % TwoTo61, bytes)
  }

  lemma KeySplits(number: U64, wire: nat)
    requires wire < 8
    ensures Key(number, wire) / 8 == number % TwoTo61 && Key(number, wire) % 8 == wire
  {
  }

  /** The key is read back and the body follows. */
  lemma KeyRoundTrip(number: U64, wire: nat, body: Bytes, usize: nat)
    requires UsizeRange(usize) && wire < 8
    ensures TakeField(Varint(Key(number, wire)) + body, usize) == TakeBody(number % TwoTo61, wire, body, usize)
  {
    KeySplits(number, wire);
    VarintRoundTrip(Key(number, wire), body);
  }

  /** The lengths of the byte fields fit the target's `usize`, as every slice's does. */
  predicate Holds(usize: nat, f: Sendable) { f.BytesField? ==> |f.bytes| < usize }

  lemma LengthKept(length: nat, usize: nat)
    requires UsizeRange(usize) && length < usize
    ensures length % usize == length
  {
    if usize == 0x1_0000_0000 {
      assert length % 0x1_0000_0000 == length;
    } else {
      assert length % TwoTo64 == length;
    }
  }

  lemma BytesRoundTrip(number: U64, bytes: Bytes, rest: Bytes, usize: nat)
    requires UsizeRange(usize) && |bytes| < usize
    ensures TakeBody(number, 2, Varint(|bytes|) + (bytes + rest), usize) == Ok(Taken(BytesField(number, bytes), rest))
  {
    VarintRoundTrip(|bytes|, bytes + rest);
    LengthKept(|bytes|, usize);
  }

  lemma FieldRoundTrip(f: Sendable, rest: Bytes, usize: nat)
    requires UsizeRange(usize) && Holds(usize, f)
    ensures TakeField(FieldBytes(f) + rest, usize) == Ok(Taken(Received(f), rest))
  {
    match f
    case VarintField(number, value) =>
      assert FieldBytes(f) + rest == Varint(Key(number, 0)) + (Varint(value) + rest);
      KeyRoundTrip(number, 0, Varint(value) + rest, usize);
      VarintRoundTrip(value, rest);
    case BytesField(number, bytes) =>
      assert FieldBytes(f) + rest == Varint(Key(number, 2)) + (Varint(|bytes|) + (bytes + rest));
      KeyRoundTrip(number, 2, Varint(|bytes|) + (bytes + rest), usize);
      BytesRoundTrip(number % TwoTo61, bytes, rest, usize);
  }

  function ReceivedAll(fields: seq<Sendable>): (r: seq<Sendable>)
    ensures |r| == |fields| && forall i | 0 <= i < |r| :: r[i] == Received(fields[i])
  {
    if fields == [] then [] else [Received(fields[0])] + ReceivedAll(fields[1..])
  }

  lemma {:induction false} MessageIsReceived(fields: seq<Sendable>, usize: nat)
    requires UsizeRange(usize) && forall f | f in fields :: Holds(usize, f)
    ensures Parse(MessageOf(fields), usize) == Ok(ReceivedAll(fields))
    decreases |fields|
  {
    if fields != [] {
      FieldRoundTrip(fields[0], MessageOf(fields[1..]), usize);
      ParseStep(MessageOf(fields), usize);
      MessageIsReceived(fields[1..], usize);
    }
  }

  lemma ReceivedIsSame(f: Sendable)
    ensures Received(f) == f <==> f.number < TwoTo61
  {
  }

  /** A message comes back as the list it was built from exactly when every field number is below 2^61. */
  lemma MessageRoundTrip(fields: seq<Sendable>, usize: nat)
    requires UsizeRange(usize) && forall f | f in fields :: Holds(usize, f)
    ensures Parse(MessageOf(fields), usize) == Ok(fields) <==> forall i | 0 <= i < |fields| :: fields[i].number < TwoTo61
  {
    MessageIsReceived(fields, usize);
    var r := ReceivedAll(fields);
    forall i | 0 <= i < |fields| ensures r[i] == fields[i] <==> fields[i].number < TwoTo61 {
      ReceivedIsSame(fields[i]);
    }
    if forall i | 0 <= i < |fields| :: fields[i].number < TwoTo61 {
      assert r == fields;
    }
  }

  /** Building a message from two lists is building it from their concatenation. */
  lemma {:induction false} MessagesConcatenate(a: seq<Sendable>, b: seq<Sendable>)
    ensures MessageOf(a + b) == MessageOf(a) + MessageOf(b)
    decreases |a|
  {
    if a == [] {
      assert a + b == b;
    } else {
      assert (a + b)[0] == a[0] && (a + b)[1..] == a[1..] + b;
      MessagesConcatenate(a[1..], b);
    }
  }
}
