/**
 The protobuf wire format: the byte-appending writer, and a reader for it that serves as its
 specification (Protocol Buffers Encoding, sections "Base 128 Varints" and "Length-Delimited
 Records").
 */
module ProtoWire {
  import opened Prelude

  /** The three field shapes the writer produces. */
  datatype Field =
    | Varint(number: nat, value: uint64)
    | Fixed64(number: nat, bits: uint64)
    | Bytes(number: nat, payload: string)

  /** Field numbers are small and payload lengths fit the varint that announces them. */
  predicate Encodable(f: Field) {
    && 0 < f.number < 0x2000_0000
    && (f.Bytes? ==> |f.payload| < TWO_64)
  }

  // ----- the written form -----

  function Byte(b: nat): char
    requires b < 256
  {
    b as char
  }

  function VarintBytes(value: nat): string {
    if value < 0x80 then [Byte(value)] else [Byte(value % 0x80 + 0x80)] + VarintBytes(value / 0x80)
  }

  function TagBytes(number: nat, wireType: nat): string {
    VarintBytes(number * 8 + wireType)
  }

  /** The low `n` bytes of `bits`, least significant first. */
  function LittleEndian(bits: nat, n: nat): string {
    if n == 0 then "" else [Byte(bits % 256)] + LittleEndian(bits / 256, n - 1)
  }

  function FieldBytes(f: Field): string {
    match f
    case Varint(number, value) => TagBytes(number, 0) + VarintBytes(value)
    case Fixed64(number, bits) => TagBytes(number, 1) + LittleEndian(bits, 8)
    case Bytes(number, payload) => TagBytes(number, 2) + VarintBytes(|payload|) + payload
  }

  function MessageBytes(fields: seq<Field>): string {
    if fields == [] then "" else FieldBytes(fields[0]) + MessageBytes(fields[1..])
  }

  lemma {:induction false} MessageAppend(a: seq<Field>, b: seq<Field>)
    ensures MessageBytes(a + b) == MessageBytes(a) + MessageBytes(b)
  {
    if a == [] {
      assert a + b == b;
    } else {
      assert (a + b)[0] == a[0] && (a + b)[1..] == a[1..] + b;
      MessageAppend(a[1..], b);
    }
  }

  lemma MessageSnoc(a: seq<Field>, f: Field)
    ensures MessageBytes(a + [f]) == MessageBytes(a) + FieldBytes(f)
  {
    MessageAppend(a, [f]);
    assert MessageBytes([f]) == FieldBytes(f) + MessageBytes([]);
  }

  // ----- the reader -----

  const MAX_VARINT_BYTES: nat := 10

  /** Up to so many bytes, seven bits each, least significant first; the value is taken modulo 2^64. */
  function ReadVarint(s: string, budget: nat): (r: Option<(nat, string)>)
    ensures r.Some? ==> |r.value.1| < |s|
  {
    if s == "" || budget == 0 || s[0] as int >= 256 then None
    else if s[0] as int < 0x80 then Some((s[0] as int, s[1..]))
    else
      match ReadVarint(s[1..], budget - 1)
      case None => None
      case Some((high, rest)) => Some((s[0] as int - 0x80 + 0x80 * high, rest))
  }

  function ReadUint64(s: string): (r: Option<(uint64, string)>)
    ensures r.Some? ==> |r.value.1| < |s|
  {
    match ReadVarint(s, MAX_VARINT_BYTES)
    case None => None
    case Some((value, rest)) => Some((value % TWO_64, rest))
  }

  function ReadLittleEndian(s: string, n: nat): Option<nat>
    requires n <= |s|
  {
    if n == 0 then Some(0)
    else if s[0] as int >= 256 then None
    else
      match ReadLittleEndian(s[1..], n - 1)
      case None => None
      case Some(high) => Some(s[0] as int + 256 * high)
  }

  /** One field and the bytes after it; None for an unknown wire type or truncated input. */
  function ReadField(s: string): (r: Option<(Field, string)>)
    ensures r.Some? ==> |r.value.1| < |s|
  {
    match ReadUint64(s)
    case None => None
    case Some((tag, body)) =>
      if tag % 8 == 0 then
        match ReadUint64(body)
        case None => None
        case Some((value, rest)) => Some((Varint(tag / 8, value), rest))
      else if tag % 8 == 1 then
        if |body| < 8 then None
        else
          match ReadLittleEndian(body, 8)
          case None => None
          case Some(bits) => if bits < TWO_64 then Some((Fixed64(tag / 8, bits), body[8..])) else None
      else if tag % 8 == 2 then
        match ReadUint64(body)
        case None => None
        case Some((length, rest)) =>
          if length > |rest| then None else Some((Bytes(tag / 8, rest[..length]), rest[length..]))
      else None
  }

  function ReadMessage(s: string): Option<seq<Field>>
    decreases |s|
  {
    if s == "" then Some([])
    else
      match ReadField(s)
      case None => None
      case Some((field, rest)) =>
        match ReadMessage(rest)
        case None => None
        case Some(fields) => Some([field] + fields)
  }

  // ----- reading back what was written -----

  lemma JoinThree(a: string, b: string, c: string)
    ensures a + b + c == a + (b + c)
  {
  }

  lemma JoinFour(a: string, b: string, c: string, d: string)
    ensures a + b + c + d == a + (b + c + d) == a + (b + (c + d))
  {
  }

  function Pow128(n: nat): nat {
    if n == 0 then 1 else 0x80 * Pow128(n - 1)
  }

  lemma {:induction false} VarintRoundTrip(value: nat, budget: nat, rest: string)
    requires budget > 0 && value < Pow128(budget)
    ensures ReadVarint(VarintBytes(value) + rest, budget) == Some((value, rest))
  {
    var s := VarintBytes(value) + rest;
    if value < 0x80 {
      assert s[1..] == rest;
    } else {
      assert budget > 1 by {
        assert Pow128(1) == 0x80;
      }
      VarintRoundTrip(value / 0x80, budget - 1, rest);
      assert s[0] == Byte(value % 0x80 + 0x80);
      assert s[1..] == VarintBytes(value / 0x80) + rest;
    }
  }

  lemma TenBytesSuffice()
    ensures Pow128(9) == 0x8000_0000_0000_0000 && Pow128(10) > TWO_64
  {
    assert Pow128(2) == 0x4000 && Pow128(4) == 0x1000_0000 && Pow128(6) == 0x400_0000_0000;
    assert Pow128(8) == 0x100_0000_0000_0000;
  }

  lemma VarintIsUint64(s: string, budget: nat, value: uint64, rest: string)
    requires budget == MAX_VARINT_BYTES && ReadVarint(s, budget) == Some((value, rest))
    ensures ReadUint64(s) == Some((value, rest))
  {
  }

  lemma Uint64RoundTrip(value: uint64, rest: string)
    ensures ReadUint64(VarintBytes(value) + rest) == Some((value, rest))
  {
    TenBytesSuffice();
    var budget: nat :| budget == MAX_VARINT_BYTES;
    VarintRoundTrip(value, budget, rest);
    VarintIsUint64(VarintBytes(value) + rest, budget, value, rest);
  }

  function Pow256(n: nat): nat {
    if n == 0 then 1 else 256 * Pow256(n - 1)
  }

  lemma {:induction false} LittleEndianRoundTrip(bits: nat, n: nat, bound: nat, rest: string)
    requires bits < bound && bound == Pow256(n)
    ensures |LittleEndian(bits, n)| == n
    ensures ReadLittleEndian(LittleEndian(bits, n) + rest, n) == Some(bits)
  {
    if n != 0 {
      LittleEndianRoundTrip(bits / 256, n - 1, Pow256(n - 1), rest);
      var s := LittleEndian(bits, n) + rest;
      assert s[1..] == LittleEndian(bits / 256, n - 1) + rest;
    }
  }

  lemma VarintFieldRoundTrip(number: nat, value: uint64, rest: string)
    requires 0 < number < 0x2000_0000
    ensures ReadField(FieldBytes(Varint(number, value)) + rest) == Some((Varint(number, value), rest))
  {
    var body := VarintBytes(value) + rest;
    JoinThree(VarintBytes(number * 8), VarintBytes(value), rest);
    assert FieldBytes(Varint(number, value)) + rest == VarintBytes(number * 8) + body;
    Uint64RoundTrip(number * 8, body);
    Uint64RoundTrip(value, rest);
  }

  lemma EightBytesSuffice()
    ensures Pow256(8) == TWO_64
  {
    assert Pow256(2) == 0x1_0000 && Pow256(4) == 0x1_0000_0000 && Pow256(6) == 0x1_0000_0000_0000;
  }

  lemma Fixed64FieldRoundTrip(number: nat, bits: uint64, rest: string)
    requires 0 < number < 0x2000_0000
    ensures ReadField(FieldBytes(Fixed64(number, bits)) + rest) == Some((Fixed64(number, bits), rest))
  {
    var word := LittleEndian(bits, 8);
    JoinThree(VarintBytes(number * 8 + 1), word, rest);
    Uint64RoundTrip(number * 8 + 1, word + rest);
    EightBytesSuffice();
    LittleEndianRoundTrip(bits, 8, TWO_64, rest);
    assert (word + rest)[8..] == rest;
    assert (number * 8 + 1) / 8 == number && (number * 8 + 1) % 8 == 1;
  }

  lemma ReadBytesField(s: string, number: nat, body: string, payload: string, rest: string)
    requires number * 8 + 2 < TWO_64 && |payload| < TWO_64
    requires ReadUint64(s) == Some((number * 8 + 2, body))
    requires ReadUint64(body) == Some((|payload|, payload + rest))
    ensures ReadField(s) == Some((Bytes(number, payload), rest))
  {
    var tail := payload + rest;
    assert tail[..|payload|] == payload && tail[|payload|..] == rest;
    assert (number * 8 + 2) / 8 == number && (number * 8 + 2) % 8 == 2;
  }

  lemma BytesFieldRoundTrip(number: nat, payload: string, rest: string)
    requires 0 < number < 0x2000_0000 && |payload| < TWO_64
    ensures ReadField(FieldBytes(Bytes(number, payload)) + rest) == Some((Bytes(number, payload), rest))
  {
    var tail := payload + rest;
    var body := VarintBytes(|payload|) + tail;
    var s := VarintBytes(number * 8 + 2) + body;
    JoinFour(VarintBytes(number * 8 + 2), VarintBytes(|payload|), payload, rest);
    assert FieldBytes(Bytes(number, payload)) + rest == s;
    Uint64RoundTrip(number * 8 + 2, body);
    Uint64RoundTrip(|payload|, tail);
    ReadBytesField(s, number, body, payload, rest);
  }

  lemma FieldRoundTrip(f: Field, rest: string)
    requires Encodable(f)
    ensures ReadField(FieldBytes(f) + rest) == Some((f, rest))
  {
    match f {
      case Varint(number, value) => VarintFieldRoundTrip(number, value, rest);
      case Fixed64(number, bits) => Fixed64FieldRoundTrip(number, bits, rest);
      case Bytes(number, payload) => BytesFieldRoundTrip(number, payload, rest);
    }
  }

  /**
   Reading a written message returns its fields, whatever they hold. The message must be one a
   64-bit process can hold.
   */
  lemma {:induction false} MessageRoundTrip(fields: seq<Field>)
    requires forall i :: 0 <= i < |fields| ==> 0 < fields[i].number < 0x2000_0000
    requires |MessageBytes(fields)| < TWO_64
    ensures ReadMessage(MessageBytes(fields)) == Some(fields)
  {
    if fields != [] {
      FieldRoundTrip(fields[0], MessageBytes(fields[1..]));
      MessageRoundTrip(fields[1..]);
      assert fields == [fields[0]] + fields[1..];
    }
  }

  lemma {:induction false} Pow128AtLeast(n: nat)
    requires n > 0
    ensures Pow128(n) >= 0x80
  {
    if n > 1 {
      Pow128AtLeast(n - 1);
    }
  }

  /** A varint takes one byte for each started group of seven bits. */
  lemma {:induction false} VarintLength(value: nat, n: nat)
    requires n > 0 && value < Pow128(n) && (n > 1 ==> value >= Pow128(n - 1))
    ensures |VarintBytes(value)| == n
  {
    if n == 1 {
      assert Pow128(1) == 0x80;
    } else {
      assert Pow128(n - 1) >= 0x80 by {
        Pow128AtLeast(n - 1);
      }
      VarintLength(value / 0x80, n - 1);
    }
  }

  // ----- the writer -----

  /** A byte string under construction: the `string &out` of the append functions. */
  class ByteString {
    var bytes: string

    /** The bytes written so far are these whole fields. */
    ghost predicate Holds(fields: seq<Field>)
      reads this
    {
      bytes == MessageBytes(fields)
    }

    constructor ()
      ensures bytes == "" && Holds([])
    {
      bytes := "";
    }
  }

  /** The C++ parameter is 64 bits wide; the model also takes the length of an unbounded string. */
  method AppendVarint(out: ByteString, value: nat)
    modifies out
    ensures out.bytes == old(out.bytes) + VarintBytes(value)
  {
    var left: nat := value;
    while left >= 0x80
      invariant out.bytes + VarintBytes(left) == old(out.bytes) + VarintBytes(value)
    {
      JoinThree(out.bytes, [Byte(left % 0x80 + 0x80)], VarintBytes(left / 0x80));
      // `(value & 0x7F) | 0x80` and `value >>= 7`.
      out.bytes := out.bytes + [Byte(left % 0x80 + 0x80)];
      left := left / 0x80;
    }
    out.bytes := out.bytes + [Byte(left)];
  }

  method AppendTag(out: ByteString, number: nat, wireType: nat)
    requires wireType < 8
    modifies out
    ensures out.bytes == old(out.bytes) + TagBytes(number, wireType)
  {
    // `field << 3 | wire_type`: the low three bits of the shifted number are clear.
    AppendVarint(out, number * 8 + wireType);
  }

  /** A zero value is left out, which readers take as the default. */
  function VarintField(number: nat, value: uint64): seq<Field> {
    if value == 0 then [] else [Varint(number, value)]
  }

  function StringField(number: nat, value: string): seq<Field> {
    if value == "" then [] else [Bytes(number, value)]
  }

  /** The two's complement pattern of a signed 64-bit value. */
  function Unsigned(value: int64): uint64 {
    if value < 0 then value + TWO_64 else value
  }

  function Signed(value: uint64): int64 {
    if value > INT64_MAX then value - TWO_64 else value
  }

  method AppendVarintField(out: ByteString, ghost done: seq<Field>, number: nat, value: uint64)
    requires out.Holds(done)
    modifies out
    ensures out.Holds(done + VarintField(number, value))
  {
    assert done + [] == done;
    if value == 0 {
      return;
    }
    ghost var before := out.bytes;
    AppendTag(out, number, 0);
    AppendVarint(out, value);
    JoinThree(before, TagBytes(number, 0), VarintBytes(value));
    MessageSnoc(done, Varint(number, value));
  }

  method AppendInt64Field(out: ByteString, ghost done: seq<Field>, number: nat, value: int64)
    requires out.Holds(done)
    modifies out
    ensures out.Holds(done + VarintField(number, Unsigned(value)))
  {
    AppendVarintField(out, done, number, Unsigned(value));
  }

  method AppendLenDelimited(out: ByteString, ghost done: seq<Field>, number: nat, payload: string)
    requires out.Holds(done)
    modifies out
    ensures out.Holds(done + [Bytes(number, payload)])
  {
    ghost var before := out.bytes;
    AppendTag(out, number, 2);
    AppendVarint(out, |payload|);
    out.bytes := out.bytes + payload;
    JoinFour(before, TagBytes(number, 2), VarintBytes(|payload|), payload);
    MessageSnoc(done, Bytes(number, payload));
  }

  /** A repeated embedded message: one field for each payload. */
  function Repeated(number: nat, payloads: seq<string>): seq<Field> {
    seq(|payloads|, i requires 0 <= i < |payloads| => Bytes(number, payloads[i]))
  }

  lemma RepeatedSnoc(done: seq<Field>, number: nat, payloads: seq<string>, i: nat)
    requires i < |payloads|
    ensures done + Repeated(number, payloads[..i + 1])
         == done + Repeated(number, payloads[..i]) + [Bytes(number, payloads[i])]
  {
  }

  method AppendStringField(out: ByteString, ghost done: seq<Field>, number: nat, value: string)
    requires out.Holds(done)
    modifies out
    ensures out.Holds(done + StringField(number, value))
  {
    assert done + [] == done;
    if value == "" {
      return;
    }
    AppendLenDelimited(out, done, number, value);
  }

  /** Append the pattern byte by byte, least significant first. */
  method AppendLittleEndian(out: ByteString, bits: Double)
    modifies out
    ensures out.bytes == old(out.bytes) + LittleEndian(bits, 8)
  {
    var left: nat := bits;
    for i := 0 to 8
      invariant out.bytes + LittleEndian(left, 8 - i) == old(out.bytes) + LittleEndian(bits, 8)
    {
      JoinThree(out.bytes, [Byte(left % 256)], LittleEndian(left / 256, 7 - i));
      // Byte `i` of the pattern is `bits >> (8 * i) & 0xFF`.
      out.bytes := out.bytes + [Byte(left % 256)];
      left := left / 256;
    }
  }

  method AppendDoubleField(out: ByteString, ghost done: seq<Field>, number: nat, bits: Double)
    requires out.Holds(done)
    modifies out
    ensures out.Holds(done + [Fixed64(number, bits)])
  {
    ghost var before := out.bytes;
    AppendTag(out, number, 1);
    AppendLittleEndian(out, bits);
    JoinThree(before, TagBytes(number, 1), LittleEndian(bits, 8));
    MessageSnoc(done, Fixed64(number, bits));
  }
}
