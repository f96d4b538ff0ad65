/** The Protocol Buffers wire parser of `ditto_screener/binary_analysis.py`
    (Protocol Buffers Encoding, "Base 128 Varints" and "Message Structure"). */
module ProtoWire {
  import opened Options
  import opened Bytes

  const MAX_PROTO_FIELDS := 4096
  const VARINT_BYTES := 10

  datatype Value = Number(n: nat) | Bytes(bytes: seq<byte>)

  datatype Field = Field(number: nat, wireType: nat, value: Value, declared: Option<nat>, complete: bool)

  datatype Status = Complete | FieldLimit | Truncated | Malformed

  /** `Nothing` is the source's `None`. */
  datatype Parsed = Nothing | Parsed(fields: seq<Field>, status: Status)

  function FieldsOf(parsed: Parsed): seq<Field> {
    if parsed.Nothing? then [] else parsed.fields
  }

  // ----- specification ------------------------------------------------------------

  /** The value of the varint at `offset`, at most `left` bytes long, and where it ends. */
  function Varint(data: seq<byte>, offset: nat, left: nat): (r: Option<(nat, nat)>)
    ensures r.Some? ==> offset < r.value.1 <= |data|
    decreases |data| - offset
  {
    if left == 0 || offset >= |data| then None
    else if data[offset] < 128 then Some((data[offset], offset + 1))
    else match Varint(data, offset + 1, left - 1)
      case None => None
      case Some((high, end)) => Some((data[offset] - 128 + 128 * high, end))
  }

  /** One step of the parser. `Cut` is a record whose declared bytes run past the end;
      a `Stop` before the key was accepted leaves no result when there are no fields. */
  datatype Item =
    | Got(field: Field, end: nat)
    | Cut(field: Field)
    | Stop(status: Status, keyed: bool)

  function Fixed(data: seq<byte>, offset: nat, number: nat, wireType: nat, width: nat): Item {
    if offset + width > |data| then Stop(Truncated, true)
    else Got(Field(number, wireType, Bytes(data[offset..offset + width]), None, true), offset + width)
  }

  function Delimited(data: seq<byte>, offset: nat, number: nat): Item {
    match Varint(data, offset, VARINT_BYTES)
    case None => Stop(Truncated, true)
    case Some((length, start)) =>
      if start + length <= |data|
      then Got(Field(number, 2, Bytes(data[start..start + length]), Some(length), true), start + length)
      else Cut(Field(number, 2, Bytes(data[start..]), Some(length), false))
  }

  function Payload(data: seq<byte>, offset: nat, number: nat, wireType: nat): (item: Item)
    ensures item.Got? ==> offset <= item.end <= |data|
    ensures item.Stop? ==> item.keyed
  {
    if wireType == 0 then
      match Varint(data, offset, VARINT_BYTES)
      case None => Stop(Truncated, true)
      case Some((value, end)) => Got(Field(number, 0, Number(value), None, true), end)
    else if wireType == 1 then Fixed(data, offset, number, 1, 8)
    else if wireType == 5 then Fixed(data, offset, number, 5, 4)
    else Delimited(data, offset, number)
  }

  predicate KeyAccepted(key: nat) {
    key / 8 >= 1 && key % 8 in {0, 1, 2, 5}
  }

  function One(data: seq<byte>, offset: nat): (item: Item)
    ensures item.Got? ==> offset < item.end <= |data|
  {
    match Varint(data, offset, VARINT_BYTES)
    case None => Stop(Truncated, false)
    case Some((key, start)) =>
      if KeyAccepted(key) then Payload(data, start, key / 8, key % 8) else Stop(Malformed, false)
  }

  function From(data: seq<byte>, offset: nat, fields: seq<Field>): Parsed
    decreases |data| - offset
  {
    if offset >= |data| then (if fields == [] then Nothing else Parsed(fields, Complete))
    else if |fields| >= MAX_PROTO_FIELDS then Parsed(fields, FieldLimit)
    else match One(data, offset)
      case Got(field, end) => From(data, end, fields + [field])
      case Cut(field) => Parsed(fields + [field], Truncated)
      case Stop(status, keyed) => if fields == [] && !keyed then Nothing else Parsed(fields, status)
  }

  // ----- the source's loops ---------------------------------------------------------

  /** The rest of a varint, added above the `scale` already read. */
  function Above(value: nat, scale: nat, rest: Option<(nat, nat)>): Option<(nat, nat)> {
    if rest.None? then None else Some((value + scale * rest.value.0, rest.value.1))
  }

  lemma AboveStep(value: nat, scale: nat, low: nat, rest: Option<(nat, nat)>)
    ensures rest.Some? ==>
      Above(value, scale, Some((low + 128 * rest.value.0, rest.value.1))) == Above(value + scale * low, scale * 128, rest)
  {
    if rest.Some? {
      var high := rest.value.0;
      assert scale * (low + 128 * high) == scale * low + (scale * 128) * high;
    }
  }

  /** The disjoint bits the source joins with `|=` are summed here. */
  method ReadVarint(data: seq<byte>, start: nat) returns (r: Option<(nat, nat)>)
    ensures r == Varint(data, start, VARINT_BYTES)
  {
    var value: nat, scale: nat, offset, round := 0, 1, start, 0;
    while round < VARINT_BYTES
      invariant 0 <= round <= VARINT_BYTES && offset == start + round
      invariant Varint(data, start, VARINT_BYTES) == Above(value, scale, Varint(data, offset, VARINT_BYTES - round))
    {
      if offset >= |data| { return None; }
      var byte := data[offset];
      AboveStep(value, scale, byte % 128, Varint(data, offset + 1, VARINT_BYTES - round - 1));
      offset := offset + 1;
      value := value + scale * (byte % 128);
      if byte < 128 { return Some((value, offset)); }
      scale := scale * 128;
      round := round + 1;
    }
    return None;
  }

  /** The branches on an accepted key. */
  method ReadPayload(data: seq<byte>, start: nat, number: nat, wireType: nat) returns (item: Item)
    ensures item == Payload(data, start, number, wireType)
  {
    if wireType == 0 {
      var result := ReadVarint(data, start);
      if result.None? { return Stop(Truncated, true); }
      return Got(Field(number, 0, Number(result.value.0), None, true), result.value.1);
    } else if wireType == 1 {
      if start + 8 > |data| { return Stop(Truncated, true); }
      return Got(Field(number, 1, Bytes(data[start..start + 8]), None, true), start + 8);
    } else if wireType == 5 {
      if start + 4 > |data| { return Stop(Truncated, true); }
      return Got(Field(number, 5, Bytes(data[start..start + 4]), None, true), start + 4);
    } else {
      var result := ReadVarint(data, start);
      if result.None? { return Stop(Truncated, true); }
      var (length, body) := result.value;
      var complete := body + length <= |data|;
      var value := Bytes(if complete then data[body..body + length] else data[body..]);
      var field := Field(number, 2, value, Some(length), complete);
      return if complete then Got(field, body + length) else Cut(field);
    }
  }

  method ProtobufFields(data: seq<byte>) returns (parsed: Parsed)
    ensures parsed == From(data, 0, [])
  {
    var fields: seq<Field> := [];
    var offset := 0;
    while offset < |data|
      invariant 0 <= offset <= |data|
      invariant From(data, 0, []) == From(data, offset, fields)
      decreases |data| - offset
    {
      if |fields| >= MAX_PROTO_FIELDS { return Parsed(fields, FieldLimit); }
      var keyResult := ReadVarint(data, offset);
      if keyResult.None? { return if fields == [] then Nothing else Parsed(fields, Truncated); }
      var (key, start) := keyResult.value;
      if !KeyAccepted(key) { return if fields == [] then Nothing else Parsed(fields, Malformed); }
      var item := ReadPayload(data, start, key / 8, key % 8);
      match item {
        case Got(field, end) => fields, offset := fields + [field], end;
        case Cut(field) => return Parsed(fields + [field], Truncated);
        case Stop(status, _) => return Parsed(fields, status);
      }
    }
    return if fields == [] then Nothing else Parsed(fields, Complete);
  }

  // ----- truncation only loses a tail --------------------------------------------------

  /** What the parser reads at `offset` of `data` does not depend on the bytes from `n` on. */
  lemma {:induction false} VarintOfPrefix(data: seq<byte>, n: nat, offset: nat, left: nat)
    requires n <= |data| && Varint(data[..n], offset, left).Some?
    ensures Varint(data, offset, left) == Varint(data[..n], offset, left)
    decreases left
  {
    if data[..n][offset] >= 128 { VarintOfPrefix(data, n, offset + 1, left - 1); }
  }

  /** An incomplete record: same header, and a value that is a prefix. */
  predicate CutOf(short: Field, long: Field) {
    && short.number == long.number && short.wireType == long.wireType && short.declared == long.declared
    && short.value.Bytes? && long.value.Bytes? && short.value.bytes <= long.value.bytes
  }

  lemma SliceOfPrefix(data: seq<byte>, n: nat, from: nat, to: nat)
    requires from <= to <= n <= |data|
    ensures data[..n][from..to] == data[from..to]
  {
  }

  lemma RestOfPrefix(data: seq<byte>, n: nat, from: nat, to: nat)
    requires from <= n <= to <= |data|
    ensures data[..n][from..] <= data[from..to]
  {
    assert data[..n][from..] == data[from..to][..n - from];
  }

  lemma FixedOfPrefix(data: seq<byte>, n: nat, offset: nat, number: nat, wireType: nat, width: nat)
    requires n <= |data|
    ensures var short := Fixed(data[..n], offset, number, wireType, width);
      if short.Got? then Fixed(data, offset, number, wireType, width) == short else short == Stop(Truncated, true)
  {
    if offset + width <= n { SliceOfPrefix(data, n, offset, offset + width); }
  }

  lemma DelimitedOfPrefix(data: seq<byte>, n: nat, offset: nat, number: nat)
    requires n <= |data|
    ensures var short, long := Delimited(data[..n], offset, number), Delimited(data, offset, number);
      && (short.Got? ==> short == long)
      && (short.Cut? ==> !long.Stop? && CutOf(short.field, long.field))
      && (short.Stop? ==> short.status == Truncated)
  {
    if Varint(data[..n], offset, VARINT_BYTES).Some? {
      VarintOfPrefix(data, n, offset, VARINT_BYTES);
      var (length, start) := Varint(data, offset, VARINT_BYTES).value;
      if start + length <= n {
        SliceOfPrefix(data, n, start, start + length);
      } else {
        RestOfPrefix(data, n, start, if start + length <= |data| then start + length else |data|);
      }
    }
  }

  lemma PayloadOfPrefix(data: seq<byte>, n: nat, offset: nat, number: nat, wireType: nat)
    requires n <= |data|
    ensures var short, long := Payload(data[..n], offset, number, wireType), Payload(data, offset, number, wireType);
      && (short.Got? ==> short == long)
      && (short.Cut? ==> !long.Stop? && CutOf(short.field, long.field))
      && (short.Stop? ==> short.status == Truncated)
  {
    if wireType == 0 {
      if Varint(data[..n], offset, VARINT_BYTES).Some? { VarintOfPrefix(data, n, offset, VARINT_BYTES); }
    } else if wireType == 1 || wireType == 5 {
      FixedOfPrefix(data, n, offset, number, wireType, if wireType == 1 then 8 else 4);
    } else {
      DelimitedOfPrefix(data, n, offset, number);
    }
  }

  lemma OneOfPrefix(data: seq<byte>, n: nat, offset: nat)
    requires n <= |data|
    ensures var short, long := One(data[..n], offset), One(data, offset);
      && (short.Got? ==> short == long)
      && (short.Cut? ==> !long.Stop? && CutOf(short.field, long.field))
      && (short.Stop? && short.status != Truncated ==> long == short)
  {
    if Varint(data[..n], offset, VARINT_BYTES).Some? {
      VarintOfPrefix(data, n, offset, VARINT_BYTES);
      var (key, start) := Varint(data, offset, VARINT_BYTES).value;
      PayloadOfPrefix(data, n, start, key / 8, key % 8);
    }
  }

  /** `short` is `long` cut off: whole fields agree, and only a last one may be incomplete. */
  ghost predicate TailLost(short: seq<Field>, long: seq<Field>) {
    && |short| <= |long|
    && forall i :: 0 <= i < |short| ==>
        if short[i].complete then short[i] == long[i] else i == |short| - 1 && CutOf(short[i], long[i])
  }

  lemma {:induction false} FromKeepsFields(data: seq<byte>, offset: nat, fields: seq<Field>)
    ensures fields <= FieldsOf(From(data, offset, fields))
    decreases |data| - offset
  {
    if offset < |data| && |fields| < MAX_PROTO_FIELDS && One(data, offset).Got? {
      FromKeepsFields(data, One(data, offset).end, fields + [One(data, offset).field]);
    }
  }

  ghost predicate AllComplete(fields: seq<Field>) {
    forall i :: 0 <= i < |fields| ==> fields[i].complete
  }

  lemma {:induction false} FromOfPrefix(data: seq<byte>, n: nat, offset: nat, fields: seq<Field>)
    requires offset <= n <= |data| && AllComplete(fields)
    ensures TailLost(FieldsOf(From(data[..n], offset, fields)), FieldsOf(From(data, offset, fields)))
    ensures From(data[..n], offset, fields).Parsed? && From(data[..n], offset, fields).status in {Malformed, FieldLimit}
      ==> From(data, offset, fields) == From(data[..n], offset, fields)
    decreases n - offset
  {
    FromKeepsFields(data, offset, fields);
    if offset < n && |fields| < MAX_PROTO_FIELDS {
      OneOfPrefix(data, n, offset);
      match One(data[..n], offset)
      case Got(field, end) => FromOfPrefix(data, n, end, fields + [field]);
      case Cut(field) =>
        var long := One(data, offset).field;
        if One(data, offset).Got? { FromKeepsFields(data, One(data, offset).end, fields + [long]); }
        assert fields + [long] <= FieldsOf(From(data, offset, fields));
        assert FieldsOf(From(data, offset, fields))[|fields|] == long;
      case Stop(_, _) =>
    }
  }

  /** For every byte string and every prefix of it, the parse of the prefix is the parse
      of the whole with a tail lost, and a verdict other than a cut-off tail is final. */
  lemma TruncationLosesATail(data: seq<byte>, n: nat)
    requires n <= |data|
    ensures TailLost(FieldsOf(From(data[..n], 0, [])), FieldsOf(From(data, 0, [])))
    ensures From(data[..n], 0, []).Parsed? && From(data[..n], 0, []).status in {Malformed, FieldLimit}
      ==> From(data, 0, []) == From(data[..n], 0, [])
  {
    FromOfPrefix(data, n, 0, []);
  }

  // ----- round trip -------------------------------------------------------------------------

  /** A record to be encoded. */
  datatype Record =
    | VarintRecord(number: nat, value: nat)
    | Fixed64Record(number: nat, bytes: seq<byte>)
    | DelimitedRecord(number: nat, bytes: seq<byte>)
    | Fixed32Record(number: nat, bytes: seq<byte>)

  function WireType(record: Record): nat {
    match record
    case VarintRecord(_, _) => 0
    case Fixed64Record(_, _) => 1
    case DelimitedRecord(_, _) => 2
    case Fixed32Record(_, _) => 5
  }

  function Key(record: Record): nat {
    record.number * 8 + WireType(record)
  }

  function Power128(n: nat): (p: nat)
    ensures p > 0
  {
    if n == 0 then 1 else 128 * Power128(n - 1)
  }

  predicate Encodable(record: Record) {
    && record.number >= 1 && Key(record) < Power128(VARINT_BYTES)
    && match record
       case VarintRecord(_, value) => value < Power128(VARINT_BYTES)
       case Fixed64Record(_, bytes) => |bytes| == 8
       case DelimitedRecord(_, bytes) => |bytes| < Power128(VARINT_BYTES)
       case Fixed32Record(_, bytes) => |bytes| == 4
  }

  function EncodeVarint(value: nat): seq<byte> {
    if value < 128 then [value] else [value % 128 + 128] + EncodeVarint(value / 128)
  }

  function EncodePayload(record: Record): seq<byte> {
    match record
    case VarintRecord(_, value) => EncodeVarint(value)
    case Fixed64Record(_, bytes) => bytes
    case DelimitedRecord(_, bytes) => EncodeVarint(|bytes|) + bytes
    case Fixed32Record(_, bytes) => bytes
  }

  function Encode(record: Record): seq<byte> {
    EncodeVarint(Key(record)) + EncodePayload(record)
  }

  function EncodeAll(records: seq<Record>): seq<byte> {
    if records == [] then [] else Encode(records[0]) + EncodeAll(records[1..])
  }

  function FieldOf(record: Record): Field {
    match record
    case VarintRecord(number, value) => Field(number, 0, Number(value), None, true)
    case Fixed64Record(number, bytes) => Field(number, 1, Bytes(bytes), None, true)
    case DelimitedRecord(number, bytes) => Field(number, 2, Bytes(bytes), Some(|bytes|), true)
    case Fixed32Record(number, bytes) => Field(number, 5, Bytes(bytes), None, true)
  }

  function FieldsFor(records: seq<Record>): seq<Field> {
    seq(|records|, i requires 0 <= i < |records| => FieldOf(records[i]))
  }

  lemma {:induction false} VarintRoundTrip(data: seq<byte>, offset: nat, value: nat, left: nat)
    requires Holds(data, offset, EncodeVarint(value)) && value < Power128(left) && 0 < left
    ensures Varint(data, offset, left) == Some((value, offset + |EncodeVarint(value)|))
    decreases left
  {
    assert data[offset] == data[offset..offset + |EncodeVarint(value)|][0];
    if value >= 128 {
      assert value / 128 < Power128(left - 1) && left > 1;
      HoldsSplit(data, offset, [value % 128 + 128], EncodeVarint(value / 128));
      VarintRoundTrip(data, offset + 1, value / 128, left - 1);
    }
  }

  lemma PayloadRoundTrip(data: seq<byte>, start: nat, record: Record)
    requires Encodable(record) && Holds(data, start, EncodePayload(record))
    ensures Payload(data, start, record.number, WireType(record)) ==
      Got(FieldOf(record), start + |EncodePayload(record)|)
  {
    match record
    case VarintRecord(_, value) => VarintRoundTrip(data, start, value, VARINT_BYTES);
    case Fixed64Record(_, bytes) =>
    case Fixed32Record(_, bytes) =>
    case DelimitedRecord(_, bytes) =>
      HoldsSplit(data, start, EncodeVarint(|bytes|), bytes);
      VarintRoundTrip(data, start, |bytes|, VARINT_BYTES);
  }

  lemma RecordRoundTrip(data: seq<byte>, offset: nat, record: Record)
    requires Encodable(record) && Holds(data, offset, Encode(record))
    ensures One(data, offset) == Got(FieldOf(record), offset + |Encode(record)|)
  {
    HoldsSplit(data, offset, EncodeVarint(Key(record)), EncodePayload(record));
    VarintRoundTrip(data, offset, Key(record), VARINT_BYTES);
    assert Key(record) / 8 == record.number && Key(record) % 8 == WireType(record);
    PayloadRoundTrip(data, offset + |EncodeVarint(Key(record))|, record);
  }

  lemma EncodeNonEmpty(record: Record)
    ensures |Encode(record)| > 0
  {
  }

  /** What parsing these records after `fields` should give. */
  function Expected(fields: seq<Field>, records: seq<Record>): Parsed
    requires |fields| <= MAX_PROTO_FIELDS
  {
    var room := MAX_PROTO_FIELDS - |fields|;
    if |records| > room then Parsed(fields + FieldsFor(records[..room]), FieldLimit)
    else if fields == [] && records == [] then Nothing
    else Parsed(fields + FieldsFor(records), Complete)
  }

  lemma ExpectedStep(fields: seq<Field>, records: seq<Record>)
    requires |fields| < MAX_PROTO_FIELDS && records != []
    ensures Expected(fields, records) == Expected(fields + [FieldOf(records[0])], records[1..])
  {
    var room := MAX_PROTO_FIELDS - |fields|;
    if |records| > room {
      assert fields + FieldsFor(records[..room]) == fields + [FieldOf(records[0])] + FieldsFor(records[1..][..room - 1]);
    } else {
      assert fields + FieldsFor(records) == fields + [FieldOf(records[0])] + FieldsFor(records[1..]);
    }
  }

  lemma EncodeAllStep(data: seq<byte>, offset: nat, records: seq<Record>)
    requires records != [] && offset <= |data| && data[offset..] == EncodeAll(records)
    ensures var end := offset + |Encode(records[0])|;
      offset < end <= |data| && Holds(data, offset, Encode(records[0])) && data[end..] == EncodeAll(records[1..])
  {
    var first, rest := Encode(records[0]), EncodeAll(records[1..]);
    EncodeNonEmpty(records[0]);
    assert data[offset..] == first + rest;
    assert data[offset..offset + |first|] == (first + rest)[..|first|];
    assert data[offset + |first|..] == (first + rest)[|first|..];
  }

  lemma {:induction false} RunRoundTrip(data: seq<byte>, offset: nat, records: seq<Record>, fields: seq<Field>)
    requires forall r :: r in records ==> Encodable(r)
    requires offset <= |data| && data[offset..] == EncodeAll(records) && |fields| <= MAX_PROTO_FIELDS
    ensures From(data, offset, fields) == Expected(fields, records)
    decreases |records|
  {
    if records == [] {
      assert fields + FieldsFor(records) == fields;
    } else {
      EncodeAllStep(data, offset, records);
      if |fields| == MAX_PROTO_FIELDS {
        assert fields + FieldsFor(records[..0]) == fields;
      } else {
        RecordRoundTrip(data, offset, records[0]);
        RunRoundTrip(data, offset + |Encode(records[0])|, records[1..], fields + [FieldOf(records[0])]);
        ExpectedStep(fields, records);
      }
    }
  }

  /** Encoding records and parsing them gives them back; beyond the cap, the first 4096. */
  lemma RoundTrip(records: seq<Record>)
    requires forall r :: r in records ==> Encodable(r)
    ensures From(EncodeAll(records), 0, []) ==
      if records == [] then Nothing
      else if |records| <= MAX_PROTO_FIELDS then Parsed(FieldsFor(records), Complete)
      else Parsed(FieldsFor(records[..MAX_PROTO_FIELDS]), FieldLimit)
  {
    var data := EncodeAll(records);
    assert data[0..] == data;
    RunRoundTrip(data, 0, records, []);
    assert Expected([], records) == From(data, 0, []);
    assert [] + FieldsFor(records) == FieldsFor(records);
    if |records| > MAX_PROTO_FIELDS {
      assert [] + FieldsFor(records[..MAX_PROTO_FIELDS]) == FieldsFor(records[..MAX_PROTO_FIELDS]);
    }
  }

  // ----- a complete parse tiles its input ----------------------------------------------------

  /** The `i`th span, taken alone, parses completely to the `i`th field. */
  ghost predicate SpanAlone(data: seq<byte>, fields: seq<Field>, bounds: seq<nat>, i: nat) {
    && i < |fields| && i + 1 < |bounds| && bounds[i] < bounds[i + 1] <= |data|
    && From(data[bounds[i]..bounds[i + 1]], 0, []) == Parsed([fields[i]], Complete)
  }

  /** `bounds` cuts `data` into consecutive non-empty spans, one for each field. */
  ghost predicate Tiles(data: seq<byte>, fields: seq<Field>, bounds: seq<nat>) {
    && |bounds| == |fields| + 1 && bounds[0] == 0 && bounds[|fields|] == |data|
    && forall i :: 0 <= i < |fields| ==> SpanAlone(data, fields, bounds, i)
  }

  /** Reading is local: the bytes outside `[from, to)` do not matter. */
  lemma {:induction false} VarintInSlice(data: seq<byte>, from: nat, to: nat, offset: nat, left: nat)
    requires from <= offset && from <= to <= |data|
    ensures var inner, outer := Varint(data[from..to], offset - from, left), Varint(data, offset, left);
      && (inner.Some? ==> outer == Some((inner.value.0, inner.value.1 + from)))
      && (outer.Some? && outer.value.1 <= to ==> inner.Some?)
    decreases left
  {
    if left > 0 && offset < to { VarintInSlice(data, from, to, offset + 1, left - 1); }
  }

  lemma SliceOfSlice(data: seq<byte>, from: nat, to: nat, i: nat, j: nat)
    requires from <= i <= j <= to <= |data|
    ensures data[from..to][i - from..j - from] == data[i..j]
  {
    var slice := data[from..to];
    forall k | 0 <= k < j - i ensures slice[i - from..j - from][k] == data[i..j][k] {
      assert slice[i - from + k] == data[i + k];
    }
  }

  ghost predicate SameItem(inner: Item, outer: Item, from: nat, to: nat) {
    && (inner.Got? ==> outer == Got(inner.field, inner.end + from))
    && (outer.Got? && outer.end <= to ==> inner.Got?)
  }

  lemma FixedInSlice(data: seq<byte>, from: nat, to: nat, offset: nat, number: nat, wireType: nat, width: nat)
    requires from <= offset <= to <= |data|
    ensures SameItem(Fixed(data[from..to], offset - from, number, wireType, width),
                     Fixed(data, offset, number, wireType, width), from, to)
  {
    if offset + width <= to { SliceOfSlice(data, from, to, offset, offset + width); }
  }

  lemma DelimitedInSlice(data: seq<byte>, from: nat, to: nat, offset: nat, number: nat)
    requires from <= offset <= to <= |data|
    ensures SameItem(Delimited(data[from..to], offset - from, number), Delimited(data, offset, number), from, to)
  {
    VarintInSlice(data, from, to, offset, VARINT_BYTES);
    var length := Varint(data, offset, VARINT_BYTES);
    if length.Some? && length.value.1 + length.value.0 <= to {
      SliceOfSlice(data, from, to, length.value.1, length.value.1 + length.value.0);
    }
  }

  lemma PayloadInSlice(data: seq<byte>, from: nat, to: nat, offset: nat, number: nat, wireType: nat)
    requires from <= offset <= to <= |data|
    ensures SameItem(Payload(data[from..to], offset - from, number, wireType),
                     Payload(data, offset, number, wireType), from, to)
  {
    if wireType == 0 {
      VarintInSlice(data, from, to, offset, VARINT_BYTES);
    } else if wireType == 1 || wireType == 5 {
      FixedInSlice(data, from, to, offset, number, wireType, if wireType == 1 then 8 else 4);
    } else {
      DelimitedInSlice(data, from, to, offset, number);
    }
  }

  lemma OneInSlice(data: seq<byte>, from: nat, to: nat)
    requires from <= to <= |data|
    ensures SameItem(One(data[from..to], 0), One(data, from), from, to)
  {
    VarintInSlice(data, from, to, from, VARINT_BYTES);
    var key := Varint(data, from, VARINT_BYTES);
    if key.Some? && key.value.1 <= to {
      PayloadInSlice(data, from, to, key.value.1, key.value.0 / 8, key.value.0 % 8);
    }
  }

  /** Bytes left over give another field or an incomplete parse. */
  lemma MoreBytesMoreFields(data: seq<byte>, offset: nat, fields: seq<Field>)
    requires offset < |data|
    ensures var parsed := From(data, offset, fields);
      parsed.Parsed? && parsed.status == Complete ==> |parsed.fields| > |fields|
  {
    if |fields| < MAX_PROTO_FIELDS && One(data, offset).Got? {
      FromKeepsFields(data, One(data, offset).end, fields + [One(data, offset).field]);
    }
  }

  lemma OneFieldParse(span: seq<byte>, field: Field)
    requires span != []
    ensures From(span, 0, []) == Parsed([field], Complete) <==> One(span, 0) == Got(field, |span|)
  {
    var item := One(span, 0);
    if item.Got? {
      assert [] + [item.field] == [item.field];
      FromKeepsFields(span, item.end, [item.field]);
      if item.end < |span| { MoreBytesMoreFields(span, item.end, [item.field]); }
    }
  }

  /** A span that parses alone to one field is one record of the whole. */
  lemma SpanIsRecord(data: seq<byte>, fields: seq<Field>, bounds: seq<nat>, i: nat)
    requires i < |fields| && i + 1 < |bounds| && bounds[i] < bounds[i + 1] <= |data|
    ensures SpanAlone(data, fields, bounds, i) <==> One(data, bounds[i]) == Got(fields[i], bounds[i + 1])
  {
    OneFieldParse(data[bounds[i]..bounds[i + 1]], fields[i]);
    OneInSlice(data, bounds[i], bounds[i + 1]);
  }

  ghost predicate Link(data: seq<byte>, fields: seq<Field>, bounds: seq<nat>, i: nat) {
    i < |fields| && i + 1 < |bounds| && bounds[i] < |data| && One(data, bounds[i]) == Got(fields[i], bounds[i + 1])
  }

  /** `bounds` are the record ends the parser meets from its first entry on. */
  ghost predicate Chain(data: seq<byte>, fields: seq<Field>, bounds: seq<nat>) {
    && |bounds| == |fields| + 1 && bounds[|fields|] == |data|
    && forall i :: 0 <= i < |fields| ==> Link(data, fields, bounds, i)
  }

  lemma ChainGrows(data: seq<byte>, offset: nat, field: Field, fields: seq<Field>, bounds: seq<nat>)
    requires Chain(data, fields, bounds) && offset < |data| && One(data, offset) == Got(field, bounds[0])
    ensures Chain(data, [field] + fields, [offset] + bounds)
  {
    forall i | 0 <= i < |fields| + 1 ensures Link(data, [field] + fields, [offset] + bounds, i) {
      if i > 0 { assert Link(data, fields, bounds, i - 1); }
    }
  }

  lemma ChainTail(data: seq<byte>, fields: seq<Field>, bounds: seq<nat>)
    requires Chain(data, fields, bounds) && fields != []
    ensures Chain(data, fields[1..], bounds[1..])
    ensures bounds[0] < |data| && One(data, bounds[0]) == Got(fields[0], bounds[1])
  {
    assert Link(data, fields, bounds, 0);
    forall i | 0 <= i < |fields| - 1 ensures Link(data, fields[1..], bounds[1..], i) {
      assert Link(data, fields, bounds, i + 1);
    }
  }

  lemma {:induction false} CompleteHasChain(data: seq<byte>, offset: nat, before: seq<Field>, fields: seq<Field>)
    returns (bounds: seq<nat>)
    requires offset <= |data| && |before| <= MAX_PROTO_FIELDS
    requires From(data, offset, before) == Parsed(before + fields, Complete)
    ensures Chain(data, fields, bounds) && bounds[0] == offset && |before| + |fields| <= MAX_PROTO_FIELDS
    decreases |data| - offset
  {
    if offset == |data| {
      assert |before + fields| == |before|;
      bounds := [offset];
    } else {
      var item := One(data, offset);
      FromKeepsFields(data, item.end, before + [item.field]);
      assert (before + fields)[|before|] == item.field;
      assert before + fields == (before + [item.field]) + fields[1..];
      var rest := CompleteHasChain(data, item.end, before + [item.field], fields[1..]);
      ChainGrows(data, offset, item.field, fields[1..], rest);
      assert [item.field] + fields[1..] == fields;
      bounds := [offset] + rest;
    }
  }

  lemma {:induction false} ChainParses(data: seq<byte>, before: seq<Field>, fields: seq<Field>, bounds: seq<nat>)
    requires Chain(data, fields, bounds) && |before| + |fields| <= MAX_PROTO_FIELDS && |before| + |fields| > 0
    ensures From(data, bounds[0], before) == Parsed(before + fields, Complete)
    decreases |fields|
  {
    if fields == [] {
      assert before + fields == before;
    } else {
      ChainTail(data, fields, bounds);
      assert before + fields == (before + [fields[0]]) + fields[1..];
      ChainParses(data, before + [fields[0]], fields[1..], bounds[1..]);
    }
  }

  lemma ChainIffTiles(data: seq<byte>, fields: seq<Field>, bounds: seq<nat>)
    requires |bounds| == |fields| + 1 && bounds[0] == 0
    ensures Chain(data, fields, bounds) <==> Tiles(data, fields, bounds)
  {
    forall i | 0 <= i < |fields| ensures Link(data, fields, bounds, i) <==> SpanAlone(data, fields, bounds, i) {
      if bounds[i] < bounds[i + 1] <= |data| { SpanIsRecord(data, fields, bounds, i); }
    }
  }

  /** A parse is complete with these fields exactly when the input is tiled by them. */
  lemma CompleteIffTiled(data: seq<byte>, fields: seq<Field>)
    ensures From(data, 0, []) == Parsed(fields, Complete) <==>
      1 <= |fields| <= MAX_PROTO_FIELDS && exists bounds :: Tiles(data, fields, bounds)
  {
    assert [] + fields == fields;
    if From(data, 0, []) == Parsed(fields, Complete) {
      var bounds := CompleteHasChain(data, 0, [], fields);
      ChainIffTiles(data, fields, bounds);
      assert Tiles(data, fields, bounds);
      assert fields != [] by { if |data| > 0 { MoreBytesMoreFields(data, 0, []); } }
    }
    if 1 <= |fields| <= MAX_PROTO_FIELDS && exists bounds :: Tiles(data, fields, bounds) {
      var bounds :| Tiles(data, fields, bounds);
      ChainIffTiles(data, fields, bounds);
      ChainParses(data, [], fields, bounds);
    }
  }
}
