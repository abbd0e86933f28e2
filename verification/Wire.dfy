/**
 The protobuf wire format: base-128 varints, tagged fields and length-delimited records, as
 in the "Base 128 Varints" and "Length-Delimited Records" sections of Protocol Buffers
 Encoding, with the sizes of fields computed without building them.
 */
module Wire {
  import opened Sequences
  import opened Lexicographic

  // Varints ----------------------------------------------------------------------------------

  function Varint(n: nat): seq<Byte>
  {
    if n < 128 then [n] else [n % 128 + 128] + Varint(n / 128)
  }

  function VarintLen(n: nat): nat
  {
    if n < 128 then 1 else 1 + VarintLen(n / 128)
  }

  const MAX_U64: nat := 0xFFFF_FFFF_FFFF_FFFF

  datatype Taken<+T> = Taken(value: T, rest: seq<Byte>)

  /** Reads a varint of at most ten bytes that fits in 64 bits; `i` bytes are already read. */
  function ReadVarint(b: seq<Byte>, i: nat): Option<Taken<nat>>
    requires i <= 9
    decreases |b|
  {
    if b == [] then None
    else if b[0] < 128 then (if i == 9 && b[0] > 1 then None else Some(Taken(b[0], b[1..])))
    else if i == 9 then None
    else
      match ReadVarint(b[1..], i + 1)
      case None => None
      case Some(t) => Some(Taken(b[0] - 128 + 128 * t.value, t.rest))
  }

  /** The values that still fit after `i` bytes of a 64-bit varint. */
  function Room(i: nat): nat
    requires i <= 9
    decreases 9 - i
  {
    if i == 9 then 2 else 128 * Room(i + 1)
  }

  lemma RoomForAll()
    ensures Room(0) == MAX_U64 + 1
  {
    assert Room(9) == 2;
    assert Room(8) == 0x100;
    assert Room(7) == 0x8000;
    assert Room(6) == 0x40_0000;
    assert Room(5) == 0x2000_0000;
    assert Room(4) == 0x10_0000_0000;
    assert Room(3) == 0x800_0000_0000;
    assert Room(2) == 0x4_0000_0000_0000;
    assert Room(1) == 0x200_0000_0000_0000;
  }

  lemma {:induction false} ReadsBack(n: nat, rest: seq<Byte>, i: nat)
    requires i <= 9 && n < Room(i)
    ensures ReadVarint(Varint(n) + rest, i) == Some(Taken(n, rest))
    decreases n
  {
    var b := Varint(n) + rest;
    if n < 128 {
      assert b[1..] == rest;
    } else {
      assert i < 9;
      assert n / 128 < Room(i + 1);
      ReadsBack(n / 128, rest, i + 1);
      assert b[1..] == Varint(n / 128) + rest;
    }
  }

  lemma {:induction false} VarintRoundTrips(n: nat, rest: seq<Byte>)
    requires n <= MAX_U64
    ensures ReadVarint(Varint(n) + rest, 0) == Some(Taken(n, rest))
  {
    RoomForAll();
    ReadsBack(n, rest, 0);
  }

  lemma {:induction false} VarintSized(n: nat)
    ensures |Varint(n)| == VarintLen(n) >= 1
  {
    if n >= 128 {
      VarintSized(n / 128);
    }
  }

  lemma {:induction false} ReadVarintShrinks(b: seq<Byte>, i: nat)
    requires i <= 9 && ReadVarint(b, i).Some?
    ensures |ReadVarint(b, i).value.rest| < |b|
    decreases |b|
  {
    if b[0] >= 128 {
      ReadVarintShrinks(b[1..], i + 1);
    }
  }

  // Fields -------------------------------------------------------------------------------------

  /** A field as it is on the wire: a varint, a length-delimited record, or a fixed-width one. */
  datatype Field = Number(tag: nat, value: nat) | Chunk(tag: nat, bytes: seq<Byte>) | Fixed(tag: nat, bytes: seq<Byte>)

  function PutField(f: Field): seq<Byte>
  {
    match f
    case Number(tag, value) => Varint(tag * 8) + Varint(value)
    case Chunk(tag, bytes) => Varint(tag * 8 + 2) + Varint(|bytes|) + bytes
    case Fixed(tag, bytes) => Varint(tag * 8 + (if |bytes| == 8 then 1 else 5)) + bytes
  }

  function PutFields(fs: seq<Field>): seq<Byte>
  {
    if fs == [] then [] else PutField(fs[0]) + PutFields(fs[1..])
  }

  function TakeBytes(b: seq<Byte>, n: nat): Option<Taken<seq<Byte>>>
  {
    if n > |b| then None else Some(Taken(b[..n], b[n..]))
  }

  /** The key is a 32-bit number; tag zero and the group wire types are refused. */
  function TakeField(b: seq<Byte>): Option<Taken<Field>>
  {
    match ReadVarint(b, 0)
    case None => None
    case Some(key) =>
      var tag, wire := key.value / 8, key.value % 8;
      if key.value > 0xFFFF_FFFF || tag == 0 then None
      else if wire == 0 then
        (match ReadVarint(key.rest, 0)
         case None => None
         case Some(v) => Some(Taken(Number(tag, v.value), v.rest)))
      else if wire == 2 then
        (match ReadVarint(key.rest, 0)
         case None => None
         case Some(n) =>
           match TakeBytes(n.rest, n.value)
           case None => None
           case Some(c) => Some(Taken(Chunk(tag, c.value), c.rest)))
      else if wire == 1 || wire == 5 then
        (match TakeBytes(key.rest, if wire == 1 then 8 else 4)
         case None => None
         case Some(c) => Some(Taken(Fixed(tag, c.value), c.rest)))
      else None
  }

  lemma TakeFieldShrinks(b: seq<Byte>)
    requires TakeField(b).Some?
    ensures |TakeField(b).value.rest| < |b|
  {
    ReadVarintShrinks(b, 0);
    var key := ReadVarint(b, 0).value;
    if key.value % 8 == 0 || key.value % 8 == 2 {
      ReadVarintShrinks(key.rest, 0);
    }
  }

  function TakeFields(b: seq<Byte>): Option<seq<Field>>
    decreases |b|
  {
    if b == [] then Some([])
    else
      match TakeField(b)
      case None => None
      case Some(t) =>
        TakeFieldShrinks(b);
        match TakeFields(t.rest)
        case None => None
        case Some(fs) => Some([t.value] + fs)
  }

  /** A field a message can hold: its key fits in 32 bits, and its sizes fit in 64. */
  predicate Encodable(f: Field)
  {
    1 <= f.tag < 0x2000_0000 &&
    match f
    case Number(_, value) => value <= MAX_U64
    case Chunk(_, bytes) => |bytes| <= MAX_U64
    case Fixed(_, bytes) => |bytes| == 8 || |bytes| == 4
  }

  lemma KeyParts(tag: nat, wire: nat)
    requires wire < 8
    ensures (tag * 8 + wire) / 8 == tag && (tag * 8 + wire) % 8 == wire
  {
  }

  lemma FieldRoundTrips(f: Field, rest: seq<Byte>)
    requires Encodable(f)
    ensures TakeField(PutField(f) + rest) == Some(Taken(f, rest))
  {
    hide Varint, ReadVarint;
    match f
    case Number(tag, value) =>
      assert PutField(f) + rest == Varint(tag * 8) + (Varint(value) + rest);
      KeyParts(tag, 0);
      VarintRoundTrips(tag * 8, Varint(value) + rest);
      VarintRoundTrips(value, rest);
    case Chunk(tag, bytes) =>
      var tail := bytes + rest;
      assert PutField(f) + rest == Varint(tag * 8 + 2) + (Varint(|bytes|) + tail);
      KeyParts(tag, 2);
      VarintRoundTrips(tag * 8 + 2, Varint(|bytes|) + tail);
      VarintRoundTrips(|bytes|, tail);
      assert tail[..|bytes|] == bytes && tail[|bytes|..] == rest;
    case Fixed(tag, bytes) =>
      var wire := if |bytes| == 8 then 1 else 5;
      var tail := bytes + rest;
      assert PutField(f) + rest == Varint(tag * 8 + wire) + tail;
      KeyParts(tag, wire);
      VarintRoundTrips(tag * 8 + wire, tail);
      assert tail[..|bytes|] == bytes && tail[|bytes|..] == rest;
  }

  lemma {:induction false} FieldsRoundTrip(fs: seq<Field>)
    requires forall i :: 0 <= i < |fs| ==> Encodable(fs[i])
    ensures TakeFields(PutFields(fs)) == Some(fs)
  {
    hide TakeField, PutField;
    if fs != [] {
      FieldSized(fs[0]);
      FieldRoundTrips(fs[0], PutFields(fs[1..]));
      FieldsRoundTrip(fs[1..]);
      assert fs == [fs[0]] + fs[1..];
    }
  }

  // Shortest forms -------------------------------------------------------------------------------

  /** The varint has no superfluous last byte; `i` bytes of it are already read. */
  predicate Tight(b: seq<Byte>, i: nat)
    requires i <= 9 && ReadVarint(b, i).Some?
    decreases |b|
  {
    if b[0] < 128 then i == 0 || b[0] > 0 else Tight(b[1..], i + 1)
  }

  lemma {:induction false} TightExactly(b: seq<Byte>, i: nat)
    requires i <= 9 && ReadVarint(b, i).Some?
    ensures var t := ReadVarint(b, i).value;
            Tight(b, i) <==> b == Varint(t.value) + t.rest && (i == 0 || t.value > 0)
    decreases |b|
  {
    var t := ReadVarint(b, i).value;
    if b[0] < 128 {
      assert b == [b[0]] + b[1..];
    } else {
      TightExactly(b[1..], i + 1);
      var inner := ReadVarint(b[1..], i + 1).value;
      assert b == [b[0]] + b[1..];
      if inner.value > 0 {
        Div128(t.value, inner.value, b[0] - 128);
        assert Varint(t.value) == [b[0]] + Varint(inner.value);
        assert Varint(t.value) + t.rest == [b[0]] + (Varint(inner.value) + t.rest);
      } else {
        assert (Varint(t.value) + t.rest)[0] == t.value;
      }
    }
  }

  lemma {:induction false} ReadVarintFits(b: seq<Byte>, i: nat)
    requires i <= 9 && ReadVarint(b, i).Some?
    ensures ReadVarint(b, i).value.value < Room(i)
    decreases |b|
  {
    if b[0] >= 128 {
      ReadVarintFits(b[1..], i + 1);
    } else {
      RoomEnough(i);
    }
  }

  lemma {:induction false} RoomEnough(i: nat)
    requires i <= 9
    ensures Room(i) >= if i == 9 then 2 else 128
    decreases 9 - i
  {
    if i < 9 {
      RoomEnough(i + 1);
    }
  }

  /** What is read can be written. */
  lemma TakenEncodable(b: seq<Byte>)
    requires TakeField(b).Some?
    ensures Encodable(TakeField(b).value.value)
  {
    hide ReadVarint, Room;
    RoomForAll();
    var key := ReadVarint(b, 0).value;
    if key.value % 8 == 0 || key.value % 8 == 2 {
      ReadVarintFits(key.rest, 0);
    }
  }

  /** The numbers in front of a field's contents are in their shortest form. */
  predicate TightField(b: seq<Byte>)
    requires TakeField(b).Some?
  {
    var key := ReadVarint(b, 0).value;
    Tight(b, 0) && (key.value % 8 == 0 || key.value % 8 == 2 ==> Tight(key.rest, 0))
  }

  lemma TightFieldExactly(b: seq<Byte>)
    requires TakeField(b).Some?
    ensures var t := TakeField(b).value;
            TightField(b) <==> b == PutField(t.value) + t.rest
  {
    hide Varint, ReadVarint, Tight;
    var t, key := TakeField(b).value, ReadVarint(b, 0).value;
    var wire := key.value % 8;
    assert key.value == t.value.tag * 8 + wire;
    TightExactly(b, 0);
    var tail := match t.value
                case Number(_, value) => Varint(value) + t.rest
                case Chunk(_, bytes) => Varint(|bytes|) + (bytes + t.rest)
                case Fixed(_, bytes) => bytes + t.rest;
    assert PutField(t.value) + t.rest == Varint(key.value) + tail;
    if wire == 0 || wire == 2 {
      TightExactly(key.rest, 0);
    }
    if b == Varint(key.value) + tail {
      VarintRoundTrips(key.value, tail);
    }
  }

  predicate TightFields(b: seq<Byte>)
    requires TakeFields(b).Some?
    decreases |b|
  {
    b == [] ||
    (TakeFieldShrinks(b);
     TightField(b) && TightFields(TakeField(b).value.rest))
  }

  /** A message is what its fields are written as exactly when all its numbers are tight. */
  lemma {:induction false} TightFieldsExactly(b: seq<Byte>)
    requires TakeFields(b).Some?
    ensures TightFields(b) <==> PutFields(TakeFields(b).value) == b
    decreases |b|
  {
    hide TakeField, PutField, TightField;
    if b != [] {
      TakeFieldShrinks(b);
      var t := TakeField(b).value;
      var fs := TakeFields(t.rest).value;
      assert ([t.value] + fs)[1..] == fs;
      TightFieldsExactly(t.rest);
      TightFieldExactly(b);
      TakenEncodable(b);
      FieldRoundTrips(t.value, PutFields(fs));
    }
  }

  // Sizes ----------------------------------------------------------------------------------------

  /** The size of a field's key: its tag with a wire type in the low three bits. */
  function KeyLen(tag: nat): nat
  {
    VarintLen(tag * 8)
  }

  function LengthDelimited(tag: nat, payload: nat): nat
  {
    KeyLen(tag) + VarintLen(payload) + payload
  }

  function NonemptyLengthDelimited(tag: nat, payload: nat): nat
  {
    if payload == 0 then 0 else LengthDelimited(tag, payload)
  }

  function PresentVarint(tag: nat, value: nat): nat
  {
    KeyLen(tag) + VarintLen(value)
  }

  function NonzeroVarint(tag: nat, value: nat): nat
  {
    if value == 0 then 0 else PresentVarint(tag, value)
  }

  lemma Div128(n: int, q: int, r: int)
    requires n == 128 * q + r && 0 <= r < 128
    ensures n / 128 == q
  {
  }

  lemma WireTypeIsFree(tag: nat, wire: nat)
    requires wire < 8
    ensures VarintLen(tag * 8 + wire) == KeyLen(tag)
  {
    var q, r := tag / 16, tag % 16;
    assert tag == 16 * q + r;
    Div128(tag * 8 + wire, q, r * 8 + wire);
    Div128(tag * 8, q, r * 8);
  }

  /** The size arithmetic is exact for every field. */
  lemma FieldSized(f: Field)
    ensures f.Number? ==> |PutField(f)| == PresentVarint(f.tag, f.value)
    ensures f.Chunk? ==> |PutField(f)| == LengthDelimited(f.tag, |f.bytes|)
    ensures |PutField(f)| > 0
  {
    match f
    case Number(tag, value) => VarintSized(tag * 8); VarintSized(value);
    case Chunk(tag, bytes) => WireTypeIsFree(tag, 2); VarintSized(tag * 8 + 2); VarintSized(|bytes|);
    case Fixed(tag, bytes) => VarintSized(tag * 8 + if |bytes| == 8 then 1 else 5);
  }

  lemma {:induction false} PutFieldsAppend(a: seq<Field>, b: seq<Field>)
    ensures PutFields(a + b) == PutFields(a) + PutFields(b)
  {
    if a == [] {
      assert a + b == b;
    } else {
      assert (a + b)[1..] == a[1..] + b;
      PutFieldsAppend(a[1..], b);
    }
  }

  lemma PutOne(f: Field)
    ensures PutFields([f]) == PutField(f)
  {
    assert [f][1..] == [];
    assert PutFields([]) == [];
  }
}
