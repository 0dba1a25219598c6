/**
 The Protocol Buffers wire format: base 128 varints, and records of a key and a value. A group is a
 record whose value is the records up to its end key; the decoder reads them to a bounded depth.
 */
module Protobuf {
  import opened Packets
  import opened Wrappers

  const TWO_64 := 0x1_0000_0000_0000_0000
  const MAX_KEY := 0xFFFF_FFFF
  const MAX_VARINT := 10
  const RECURSION_LIMIT := 100

  // ── Varints ─────────────────────────────────────────────────────────────

  function WriteVarint(n: nat): (b: Bytes)
    ensures b != []
  {
    if n < 128 then [n] else [n % 128 + 128] + WriteVarint(n / 128)
  }

  /** At most ten bytes, and at most one bit in the tenth; `seen` bytes are already read. */
  function ReadVarint(b: Bytes, seen: nat): (r: Option<(nat, Bytes)>)
    requires seen < MAX_VARINT
    ensures r.Some? ==> |r.value.1| < |b|
    decreases MAX_VARINT - seen
  {
    if b == [] then None
    else if b[0] < 128 then
      if seen == MAX_VARINT - 1 && b[0] >= 2 then None else Some((b[0], b[1..]))
    else if seen == MAX_VARINT - 1 then None
    else
      match ReadVarint(b[1..], seen + 1)
      case None => None
      case Some((high, rest)) => Some((b[0] - 128 + 128 * high, rest))
  }

  /** What still fits after `seen` bytes. */
  function Room(seen: nat): nat {
    if seen == 0 then TWO_64 else Room(seen - 1) / 128
  }

  lemma RoomAt(seen: nat)
    requires seen < MAX_VARINT
    ensures Room(9) == 2
    ensures seen < 9 ==> Room(seen) == 128 * Room(seen + 1) && Room(seen + 1) >= 2
  {
    assert Room(1) == TWO_64 / 128;
    assert Room(2) == Room(1) / 128;
    assert Room(3) == Room(2) / 128;
    assert Room(4) == Room(3) / 128;
    assert Room(5) == Room(4) / 128;
    assert Room(6) == Room(5) / 128;
    assert Room(7) == Room(6) / 128;
    assert Room(8) == Room(7) / 128;
  }

  lemma {:induction false} VarintFrom(n: nat, rest: Bytes, seen: nat)
    requires seen < MAX_VARINT && n < Room(seen)
    ensures ReadVarint(WriteVarint(n) + rest, seen) == Some((n, rest))
    decreases MAX_VARINT - seen
  {
    NextFits(n, seen);
    if n < 128 {
      ReadLast(n, rest, seen);
    } else {
      var high := n / 128;
      VarintFrom(high, rest, seen + 1);
      ReadMore(n % 128, WriteVarint(high) + rest, seen);
      Regroup([n % 128 + 128], WriteVarint(high), rest);
    }
  }

  lemma NextFits(n: nat, seen: nat)
    requires seen < MAX_VARINT && n < Room(seen)
    ensures n % 128 + 128 * (n / 128) == n
    ensures if seen == MAX_VARINT - 1 then n < 2 else n / 128 < Room(seen + 1)
  {
    RoomAt(seen);
  }

  lemma ReadLast(n: nat, rest: Bytes, seen: nat)
    requires n < 128 && seen < MAX_VARINT && (seen == MAX_VARINT - 1 ==> n < 2)
    ensures ReadVarint([n] + rest, seen) == Some((n, rest))
  {
    assert ([n] + rest)[1..] == rest;
  }

  lemma ReadMore(low: nat, more: Bytes, seen: nat)
    requires low < 128 && seen + 1 < MAX_VARINT && ReadVarint(more, seen + 1).Some?
    ensures var (high, rest) := ReadVarint(more, seen + 1).value;
            ReadVarint([low + 128] + more, seen) == Some((low + 128 * high, rest))
  {
    assert ([low + 128] + more)[1..] == more;
  }

  /** Every 64-bit number reads back, and what follows it is left alone. */
  lemma VarintRoundTrip(n: nat, rest: Bytes)
    requires n < TWO_64
    ensures ReadVarint(WriteVarint(n) + rest, 0) == Some((n, rest))
  {
    VarintFrom(n, rest, 0);
  }

  lemma {:induction false} VarintBound(b: Bytes, seen: nat)
    requires seen < MAX_VARINT && ReadVarint(b, seen).Some?
    ensures ReadVarint(b, seen).value.0 < Room(seen)
    decreases MAX_VARINT - seen
  {
    RoomAt(seen);
    if b[0] >= 128 {
      VarintBound(b[1..], seen + 1);
    }
  }

  /** No byte string reads as a number past 64 bits. */
  lemma VarintFits(b: Bytes)
    requires ReadVarint(b, 0).Some?
    ensures ReadVarint(b, 0).value.0 < TWO_64
  {
    VarintBound(b, 0);
  }

  // ── Records ─────────────────────────────────────────────────────────────

  const GROUP_START := 3
  const GROUP_END := 4

  datatype Field =
    | Varint(number: nat, value: nat)
    | Fixed64(number: nat, data: Bytes)
    | Delimited(number: nat, data: Bytes)
    | Group(number: nat, fields: seq<Field>)
    | Fixed32(number: nat, data: Bytes)

  predicate WellFormed(f: Field) {
    && 1 <= f.number <= MAX_KEY / 8
    && (f.Varint? ==> f.value < TWO_64)
    && (f.Fixed64? ==> |f.data| == 8)
    && (f.Delimited? ==> |f.data| < TWO_64)
    && (f.Fixed32? ==> |f.data| == 4)
    && (f.Group? ==> AllWellFormed(f.fields))
  }

  predicate AllWellFormed(fields: seq<Field>) {
    forall k :: 0 <= k < |fields| ==> WellFormed(fields[k])
  }

  /** How deep the groups nest: 1 for a record without any inside. */
  function Depth(f: Field): nat {
    if f.Group? then 1 + DepthAll(f.fields) else 1
  }

  function DepthAll(fields: seq<Field>): nat {
    if fields == [] then 0
    else
      var first, rest := Depth(fields[0]), DepthAll(fields[1..]);
      if first >= rest then first else rest
  }

  function WireType(f: Field): nat {
    match f
    case Varint(_, _) => 0
    case Fixed64(_, _) => 1
    case Delimited(_, _) => 2
    case Group(_, _) => GROUP_START
    case Fixed32(_, _) => 5
  }

  function WriteKey(number: nat, wire: nat): Bytes {
    WriteVarint(number * 8 + wire)
  }

  function WriteValue(f: Field): Bytes
    decreases f, 0
  {
    match f
    case Varint(_, value) => WriteVarint(value)
    case Delimited(_, data) => WriteVarint(|data|) + data
    case Group(number, fields) => Write(fields) + WriteKey(number, GROUP_END)
    case Fixed64(_, data) => data
    case Fixed32(_, data) => data
  }

  function WriteField(f: Field): Bytes
    decreases f, 1
  {
    WriteKey(f.number, WireType(f)) + WriteValue(f)
  }

  function Write(fields: seq<Field>): Bytes
    decreases fields, 0
  {
    if fields == [] then [] else WriteField(fields[0]) + Write(fields[1..])
  }

  // ── Reading ─────────────────────────────────────────────────────────────

  function Split(b: Bytes, n: nat): Option<(Bytes, Bytes)> {
    if n <= |b| then Some((b[..n], b[n..])) else None
  }

  /** Field number, wire type and the rest; a number is never 0 and a key fits 32 bits. */
  function ReadKey(b: Bytes): (r: Option<(nat, nat, Bytes)>)
    ensures r.Some? ==> |r.value.2| < |b|
  {
    match ReadVarint(b, 0)
    case None => None
    case Some((key, rest)) => if key > MAX_KEY || key / 8 == 0 then None else Some((key / 8, key % 8, rest))
  }

  /** A stray end key, and wire types 6 and 7, are errors; so is anything below the recursion limit. */
  function ReadValue(number: nat, wire: nat, b: Bytes, limit: nat): (r: Option<(Field, Bytes)>)
    ensures r.Some? ==> |r.value.1| <= |b|
    decreases |b|, 1
  {
    if limit == 0 then None
    else if wire == 0 then
      match ReadVarint(b, 0)
      case None => None
      case Some((value, rest)) => Some((Varint(number, value), rest))
    else if wire == 1 then
      match Split(b, 8)
      case None => None
      case Some((data, rest)) => Some((Fixed64(number, data), rest))
    else if wire == 2 then
      match ReadVarint(b, 0)
      case None => None
      case Some((n, body)) => (
        match Split(body, n)
        case None => None
        case Some((data, rest)) => Some((Delimited(number, data), rest))
      )
    else if wire == GROUP_START then
      match ReadGroup(number, b, limit - 1)
      case None => None
      case Some((fields, rest)) => Some((Group(number, fields), rest))
    else if wire == 5 then
      match Split(b, 4)
      case None => None
      case Some((data, rest)) => Some((Fixed32(number, data), rest))
    else None
  }

  /** The records up to the end key, which must carry the group's own number. */
  function ReadGroup(number: nat, b: Bytes, limit: nat): (r: Option<(seq<Field>, Bytes)>)
    ensures r.Some? ==> |r.value.1| <= |b|
    decreases |b|, 0
  {
    match ReadKey(b)
    case None => None
    case Some((inner, wire, body)) =>
      if wire == GROUP_END then
        if inner == number then Some(([], body)) else None
      else
        match ReadValue(inner, wire, body, limit)
        case None => None
        case Some((f, rest)) => (
          match ReadGroup(number, rest, limit)
          case None => None
          case Some((more, after)) => Some(([f] + more, after))
        )
  }

  function ReadField(b: Bytes): (r: Option<(Field, Bytes)>)
    ensures r.Some? ==> |r.value.1| < |b|
  {
    match ReadKey(b)
    case None => None
    case Some((number, wire, rest)) => ReadValue(number, wire, rest, RECURSION_LIMIT)
  }

  function Read(b: Bytes): Option<seq<Field>>
    decreases |b|
  {
    if b == [] then Some([])
    else
      match ReadField(b)
      case None => None
      case Some((f, rest)) => (
        match Read(rest)
        case None => None
        case Some(more) => Some([f] + more)
      )
  }

  // ── Written records read back ───────────────────────────────────────────

  lemma SplitConcat(a: Bytes, b: Bytes)
    ensures Split(a + b, |a|) == Some((a, b))
  {
  }

  lemma Regroup(a: Bytes, b: Bytes, c: Bytes)
    ensures (a + b) + c == a + (b + c)
  {
  }

  lemma KeyParts(number: nat, wire: nat)
    requires wire < 8
    ensures (number * 8 + wire) / 8 == number && (number * 8 + wire) % 8 == wire
  {
  }

  lemma KeyReadsBack(number: nat, wire: nat, body: Bytes)
    requires 1 <= number <= MAX_KEY / 8 && wire < 8
    ensures ReadKey(WriteKey(number, wire) + body) == Some((number, wire, body))
  {
    KeyParts(number, wire);
    VarintRoundTrip(number * 8 + wire, body);
    KeyOf(number * 8 + wire, WriteKey(number, wire) + body, body);
  }

  lemma KeyOf(key: nat, b: Bytes, body: Bytes)
    requires key <= MAX_KEY && key / 8 != 0 && ReadVarint(b, 0) == Some((key, body))
    ensures ReadKey(b) == Some((key / 8, key % 8, body))
  {
  }

  lemma LeafReadsBack(f: Field, rest: Bytes, limit: nat)
    requires WellFormed(f) && !f.Group? && limit > 0
    ensures ReadValue(f.number, WireType(f), WriteValue(f) + rest, limit) == Some((f, rest))
  {
    match f {
      case Varint(_, value) => VarintRoundTrip(value, rest);
      case Delimited(_, data) =>
        Regroup(WriteVarint(|data|), data, rest);
        VarintRoundTrip(|data|, data + rest);
        SplitConcat(data, rest);
      case Fixed64(_, data) => SplitConcat(data, rest);
      case Fixed32(_, data) => SplitConcat(data, rest);
    }
  }

  lemma GroupValue(number: nat, fields: seq<Field>, rest: Bytes, limit: nat)
    requires limit > 0
    ensures var inside := ReadGroup(number, Write(fields) + (WriteKey(number, GROUP_END) + rest), limit - 1);
            ReadValue(number, GROUP_START, WriteValue(Group(number, fields)) + rest, limit)
            == if inside.None? then None else Some((Group(number, inside.value.0), inside.value.1))
  {
    Regroup(Write(fields), WriteKey(number, GROUP_END), rest);
  }

  /** A written record reads back, whatever follows it, exactly when it nests within the limit. */
  lemma {:induction false} ValueReadsBack(f: Field, rest: Bytes, limit: nat)
    requires WellFormed(f)
    ensures ReadValue(f.number, WireType(f), WriteValue(f) + rest, limit)
            == if Depth(f) <= limit then Some((f, rest)) else None
    decreases f, 1
  {
    match f {
      case Group(number, fields) =>
        WholeGroupReadsBack(number, fields, rest, limit);
      case _ =>
        if limit > 0 {
          LeafReadsBack(f, rest, limit);
        }
    }
  }

  lemma {:induction false} WholeGroupReadsBack(number: nat, fields: seq<Field>, rest: Bytes, limit: nat)
    requires AllWellFormed(fields) && 1 <= number <= MAX_KEY / 8
    ensures ReadValue(number, GROUP_START, WriteValue(Group(number, fields)) + rest, limit)
            == if Depth(Group(number, fields)) <= limit then Some((Group(number, fields), rest)) else None
    decreases fields, 1
  {
    if limit > 0 {
      GroupReadsBack(number, fields, rest, limit - 1);
      GroupRecord(number, fields, rest, limit);
    }
  }

  lemma GroupRecord(number: nat, fields: seq<Field>, rest: Bytes, limit: nat)
    requires limit > 0
    requires ReadGroup(number, Write(fields) + (WriteKey(number, GROUP_END) + rest), limit - 1)
             == if DepthAll(fields) <= limit - 1 then Some((fields, rest)) else None
    ensures ReadValue(number, GROUP_START, WriteValue(Group(number, fields)) + rest, limit)
            == if Depth(Group(number, fields)) <= limit then Some((Group(number, fields), rest)) else None
  {
    GroupValue(number, fields, rest, limit);
  }

  lemma {:induction false} GroupReadsBack(number: nat, fields: seq<Field>, rest: Bytes, limit: nat)
    requires AllWellFormed(fields) && 1 <= number <= MAX_KEY / 8
    ensures ReadGroup(number, Write(fields) + (WriteKey(number, GROUP_END) + rest), limit)
            == if DepthAll(fields) <= limit then Some((fields, rest)) else None
    decreases fields, 0
  {
    var tail := WriteKey(number, GROUP_END) + rest;
    if fields == [] {
      assert Write(fields) + tail == tail;
      KeyReadsBack(number, GROUP_END, rest);
    } else {
      var f := fields[0];
      var after := Write(fields[1..]) + tail;
      Regroup(WriteField(f), Write(fields[1..]), tail);
      Regroup(WriteKey(f.number, WireType(f)), WriteValue(f), after);
      KeyReadsBack(f.number, WireType(f), WriteValue(f) + after);
      ValueReadsBack(f, after, limit);
      GroupReadsBack(number, fields[1..], rest, limit);
      assert [f] + fields[1..] == fields;
    }
  }

  lemma FieldReadsBack(f: Field, rest: Bytes)
    requires WellFormed(f)
    ensures ReadField(WriteField(f) + rest) == if Depth(f) <= RECURSION_LIMIT then Some((f, rest)) else None
  {
    Regroup(WriteKey(f.number, WireType(f)), WriteValue(f), rest);
    KeyReadsBack(f.number, WireType(f), WriteValue(f) + rest);
    ValueReadsBack(f, rest, RECURSION_LIMIT);
  }

  /** A written message reads back as the same records in the same order, exactly when none nests too deep. */
  lemma {:induction false} ReadsBack(fields: seq<Field>)
    requires AllWellFormed(fields)
    ensures Read(Write(fields)) == if DepthAll(fields) <= RECURSION_LIMIT then Some(fields) else None
  {
    if fields != [] {
      ReadsBack(fields[1..]);
      FieldReadsBack(fields[0], Write(fields[1..]));
      assert [fields[0]] + fields[1..] == fields;
    }
  }

  // ── Whatever reads is well formed ───────────────────────────────────────

  lemma LeafIsWellFormed(number: nat, wire: nat, b: Bytes, limit: nat)
    requires 1 <= number <= MAX_KEY / 8 && wire != GROUP_START && ReadValue(number, wire, b, limit).Some?
    ensures var f := ReadValue(number, wire, b, limit).value.0;
            f.number == number && WellFormed(f) && Depth(f) <= limit
  {
    if wire == 0 || wire == 2 {
      VarintFits(b);
    }
  }

  lemma {:induction false} ValueIsWellFormed(number: nat, wire: nat, b: Bytes, limit: nat)
    requires 1 <= number <= MAX_KEY / 8 && ReadValue(number, wire, b, limit).Some?
    ensures var f := ReadValue(number, wire, b, limit).value.0;
            f.number == number && WellFormed(f) && Depth(f) <= limit
    decreases |b|, 1
  {
    if wire == GROUP_START {
      GroupIsWellFormed(number, b, limit - 1);
    } else {
      LeafIsWellFormed(number, wire, b, limit);
    }
  }

  lemma {:induction false} GroupIsWellFormed(number: nat, b: Bytes, limit: nat)
    requires ReadGroup(number, b, limit).Some?
    ensures var fields := ReadGroup(number, b, limit).value.0; AllWellFormed(fields) && DepthAll(fields) <= limit
    decreases |b|, 0
  {
    var (inner, wire, body) := ReadKey(b).value;
    if wire != GROUP_END {
      var (f, rest) := ReadValue(inner, wire, body, limit).value;
      ValueIsWellFormed(inner, wire, body, limit);
      GroupIsWellFormed(number, rest, limit);
      assert ([f] + ReadGroup(number, rest, limit).value.0)[1..] == ReadGroup(number, rest, limit).value.0;
    }
  }

  /** Whatever bytes read are well formed: numbers in range, values in 64 bits, groups within the limit. */
  lemma {:induction false} ReadIsWellFormed(b: Bytes)
    requires Read(b).Some?
    ensures AllWellFormed(Read(b).value) && DepthAll(Read(b).value) <= RECURSION_LIMIT
    decreases |b|
  {
    if b != [] {
      var (number, wire, body) := ReadKey(b).value;
      var (f, rest) := ReadField(b).value;
      ValueIsWellFormed(number, wire, body, RECURSION_LIMIT);
      ReadIsWellFormed(rest);
      assert ([f] + Read(rest).value)[1..] == Read(rest).value;
    }
  }

  // ── The documented encodings ────────────────────────────────────────────

  /** Seven bits a byte, the lowest first, the top bit set on all but the last. */
  lemma {:induction false} VarintDigits(n: nat)
    ensures var b := WriteVarint(n);
            && (forall k :: 0 <= k < |b| - 1 ==> b[k] >= 128) && b[|b| - 1] < 128
            && b[0] % 128 == n % 128
            && (|b| > 1 ==> b[1..] == WriteVarint(n / 128))
  {
    if n >= 128 {
      VarintDigits(n / 128);
    }
  }

  /** "Protocol Buffers Encoding": field 1 as the varint 150, and field 2 as the string "testing". */
  lemma DocumentedRecords()
    ensures WriteField(Varint(1, 150)) == [0x08, 0x96, 0x01]
    ensures WriteField(Delimited(2, [0x74, 0x65, 0x73, 0x74, 0x69, 0x6e, 0x67]))
            == [0x12, 0x07, 0x74, 0x65, 0x73, 0x74, 0x69, 0x6e, 0x67]
  {
    assert WriteVarint(1) == [1] && WriteVarint(150) == [0x96, 0x01];
  }
}
