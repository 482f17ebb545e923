/**
 The protobuf wire format, as far as the messages use it: varints of at most ten
 bytes, tags, and the four wire types that are not groups (Protocol Buffers
 Encoding, sections "Base 128 Varints" and "Message Structure").
 */
module ProtoWire {
  import opened Basics

  type Byte = x: int | 0 <= x < 256

  type Bytes = seq<Byte>

  const MAX_UINT64: nat := 0xFFFF_FFFF_FFFF_FFFF
  const MAX_FIELD_NUMBER: nat := 0x7FFF_FFFF

  /** A value read and the bytes behind it. */
  datatype Read<T> = Read(value: T, rest: Bytes)

  function AppendVarint(v: nat): (b: Bytes)
    ensures b != []
  {
    if v < 128 then [v] else [128 + v % 128] + AppendVarint(v / 128)
  }

  /** One more than the largest value that the bytes from the k-th on can hold. */
  function Limit(k: nat): (limit: nat)
    requires k <= 9
    ensures limit >= 2
    decreases 9 - k
  {
    if k == 9 then 2 else 128 * Limit(k + 1)
  }

  /** Reads from the k-th byte of a varint on; the tenth may only hold one bit. */
  function VarintFrom(b: Bytes, k: nat): (r: Option<Read<nat>>)
    requires k <= 9
    ensures r.Some? ==> r.value.value < Limit(k) && |r.value.rest| < |b|
    decreases 9 - k
  {
    if b == [] then None
    else if k == 9 then if b[0] < 2 then Some(Read(b[0], b[1..])) else None
    else if b[0] < 128 then Some(Read(b[0], b[1..]))
    else
      var more := VarintFrom(b[1..], k + 1);
      if more.None? then None else Some(Read(b[0] - 128 + 128 * more.value.value, more.value.rest))
  }

  function ConsumeVarint(b: Bytes): Option<Read<nat>> {
    VarintFrom(b, 0)
  }

  datatype WireType = VarintType | Fixed64Type | BytesType | Fixed32Type | OtherType

  datatype Tag = Tag(number: nat, wire: WireType)

  function WireCode(w: WireType): nat {
    match w
    case VarintType => 0
    case Fixed64Type => 1
    case BytesType => 2
    case Fixed32Type => 5
    case OtherType => 3
  }

  function WireOf(code: nat): WireType {
    if code == 0 then VarintType
    else if code == 1 then Fixed64Type
    else if code == 2 then BytesType
    else if code == 5 then Fixed32Type
    else OtherType
  }

  function ConsumeTag(b: Bytes): Option<Read<Tag>> {
    var r := ConsumeVarint(b);
    if r.None? || r.value.value / 8 > MAX_FIELD_NUMBER || r.value.value / 8 < 1 then None
    else Some(Read(Tag(r.value.value / 8, WireOf(r.value.value % 8)), r.value.rest))
  }

  function ConsumeFixed(b: Bytes, n: nat): Option<Read<Bytes>> {
    if |b| < n then None else Some(Read(b[..n], b[n..]))
  }

  function ConsumeBytes(b: Bytes): Option<Read<Bytes>> {
    var r := ConsumeVarint(b);
    if r.None? then None else ConsumeFixed(r.value.rest, r.value.value)
  }

  /** The value of a field, by its wire type. */
  datatype Value = Varint(v: nat) | Fixed(bytes: Bytes) | Payload(bytes: Bytes)

  function ConsumeValue(w: WireType, b: Bytes): Option<Read<Value>> {
    match w
    case VarintType =>
      var r := ConsumeVarint(b);
      if r.None? then None else Some(Read(Varint(r.value.value), r.value.rest))
    case Fixed64Type =>
      var r := ConsumeFixed(b, 8);
      if r.None? then None else Some(Read(Fixed(r.value.value), r.value.rest))
    case Fixed32Type =>
      var r := ConsumeFixed(b, 4);
      if r.None? then None else Some(Read(Fixed(r.value.value), r.value.rest))
    case BytesType =>
      var r := ConsumeBytes(b);
      if r.None? then None else Some(Read(Payload(r.value.value), r.value.rest))
    case OtherType => None
  }

  datatype Field = Field(number: nat, wire: WireType, value: Value) {
    predicate Valid() {
      && 1 <= number <= MAX_FIELD_NUMBER
      && match wire
         case VarintType => value.Varint? && value.v <= MAX_UINT64
         case Fixed64Type => value.Fixed? && |value.bytes| == 8
         case Fixed32Type => value.Fixed? && |value.bytes| == 4
         case BytesType => value.Payload? && |value.bytes| <= MAX_UINT64
         case OtherType => false
    }
  }

  function AppendTag(number: nat, w: WireType): Bytes {
    AppendVarint(8 * number + WireCode(w))
  }

  function AppendBytes(payload: Bytes): Bytes {
    AppendVarint(|payload|) + payload
  }

  function Encode(f: Field): Bytes {
    AppendTag(f.number, f.wire) +
      match f.value
      case Varint(v) => AppendVarint(v)
      case Fixed(bytes) => bytes
      case Payload(bytes) => AppendBytes(bytes)
  }

  function EncodeAll(fs: seq<Field>): Bytes {
    if fs == [] then [] else EncodeAll(fs[..|fs| - 1]) + Encode(fs[|fs| - 1])
  }

  function ConsumeField(b: Bytes): (r: Option<Read<Field>>)
    ensures r.Some? ==> |r.value.rest| < |b|
  {
    var tag := ConsumeTag(b);
    if tag.None? then None
    else
      var value := ConsumeValue(tag.value.value.wire, tag.value.rest);
      if value.None? then None
      else Some(Read(Field(tag.value.value.number, tag.value.value.wire, value.value.value), value.value.rest))
  }

  // ----- Reading what was written -----

  lemma {:induction false} VarintReads(v: nat, k: nat, rest: Bytes)
    requires k <= 9 && v < Limit(k)
    ensures VarintFrom(AppendVarint(v) + rest, k) == Some(Read(v, rest))
    decreases 9 - k
  {
    if v < 128 {
      LastGroup(v, k, rest);
    } else {
      HighGroups(v, k);
      VarintReads(v / 128, k + 1, rest);
      MoreGroups(v, v / 128, k, rest);
    }
    hide Limit, VarintFrom, AppendVarint;
  }

  lemma LastGroup(v: nat, k: nat, rest: Bytes)
    requires k <= 9 && v < 128 && v < Limit(k)
    ensures VarintFrom(AppendVarint(v) + rest, k) == Some(Read(v, rest))
  {
    var b := AppendVarint(v) + rest;
    assert b[0] == v && b[1..] == rest;
  }

  lemma MoreGroups(v: nat, high: nat, k: nat, rest: Bytes)
    requires k < 9 && v >= 128 && high == v / 128
    requires VarintFrom(AppendVarint(high) + rest, k + 1) == Some(Read(high, rest))
    ensures VarintFrom(AppendVarint(v) + rest, k) == Some(Read(v, rest))
  {
    hide VarintFrom;
    var first: Byte := 128 + v % 128;
    assert AppendVarint(v) + rest == [first] + (AppendVarint(high) + rest);
    GroupRead(first, AppendVarint(high) + rest, k, v, high, rest);
  }

  /** One more group in front. */
  lemma GroupRead(first: Byte, b: Bytes, k: nat, v: nat, high: nat, rest: Bytes)
    requires k < 9 && first == 128 + v % 128 && high == v / 128 && VarintFrom(b, k + 1) == Some(Read(high, rest))
    ensures VarintFrom([first] + b, k) == Some(Read(v, rest))
  {
    hide Limit;
    assert ([first] + b)[1..] == b;
  }

  lemma HighGroups(v: nat, k: nat)
    requires k <= 9 && 128 <= v < Limit(k)
    ensures k < 9 && v / 128 < Limit(k + 1)
  {
  }

  lemma LimitIsUint64()
    ensures Limit(0) == MAX_UINT64 + 1
  {
    assert Limit(8) == 256 && Limit(7) == 128 * 256;
    assert Limit(6) == 128 * Limit(7) && Limit(5) == 128 * Limit(6);
    assert Limit(4) == 128 * Limit(5) && Limit(3) == 128 * Limit(4);
    assert Limit(2) == 128 * Limit(3) && Limit(1) == 128 * Limit(2);
  }

  lemma ReadsVarint(v: nat, rest: Bytes)
    requires v <= MAX_UINT64
    ensures ConsumeVarint(AppendVarint(v) + rest) == Some(Read(v, rest))
  {
    LimitIsUint64();
    VarintReads(v, 0, rest);
  }

  lemma ReadsTag(number: nat, w: WireType, rest: Bytes)
    requires 1 <= number <= MAX_FIELD_NUMBER && !w.OtherType?
    ensures ConsumeTag(AppendTag(number, w) + rest) == Some(Read(Tag(number, w), rest))
  {
    hide ConsumeVarint, AppendVarint;
    TagParts(number, WireCode(w));
    ReadsVarint(8 * number + WireCode(w), rest);
  }

  lemma TagParts(number: nat, code: nat)
    requires code < 8
    ensures (8 * number + code) / 8 == number && (8 * number + code) % 8 == code
  {
  }

  lemma ReadsBytes(payload: Bytes, rest: Bytes)
    requires |payload| <= MAX_UINT64
    ensures ConsumeBytes(AppendBytes(payload) + rest) == Some(Read(payload, rest))
  {
    ReadsVarint(|payload|, payload + rest);
    assert AppendBytes(payload) + rest == AppendVarint(|payload|) + (payload + rest);
    assert (payload + rest)[..|payload|] == payload && (payload + rest)[|payload|..] == rest;
  }

  /** A written field is read back, and nothing behind it. */
  lemma ReadsField(f: Field, rest: Bytes)
    requires f.Valid()
    ensures ConsumeField(Encode(f) + rest) == Some(Read(f, rest))
  {
    hide AppendTag, AppendBytes, AppendVarint, ConsumeTag, ConsumeVarint, ConsumeBytes;
    var value :=
      match f.value {
        case Varint(v) => AppendVarint(v)
        case Fixed(bytes) => bytes
        case Payload(bytes) => AppendBytes(bytes)
      };
    assert Encode(f) + rest == AppendTag(f.number, f.wire) + (value + rest);
    ReadsTag(f.number, f.wire, value + rest);
    match f.value {
      case Varint(v) => ReadsVarint(v, rest);
      case Fixed(bytes) => assert (bytes + rest)[..|bytes|] == bytes && (bytes + rest)[|bytes|..] == rest;
      case Payload(bytes) => ReadsBytes(bytes, rest);
    }
  }

  // ----- Reading does not look ahead -----

  lemma {:induction false} VarintLocal(b: Bytes, k: nat, more: Bytes)
    requires k <= 9 && VarintFrom(b, k).Some?
    ensures VarintFrom(b + more, k) == Some(Read(VarintFrom(b, k).value.value, VarintFrom(b, k).value.rest + more))
    decreases 9 - k
  {
    assert (b + more)[1..] == b[1..] + more;
    if k < 9 && b[0] >= 128 {
      VarintLocal(b[1..], k + 1, more);
    }
  }

  lemma FixedLocal(b: Bytes, n: nat, more: Bytes)
    requires ConsumeFixed(b, n).Some?
    ensures ConsumeFixed(b + more, n)
         == Some(Read(ConsumeFixed(b, n).value.value, ConsumeFixed(b, n).value.rest + more))
  {
    assert (b + more)[..n] == b[..n] && (b + more)[n..] == b[n..] + more;
  }

  lemma ValueLocal(w: WireType, b: Bytes, more: Bytes)
    requires ConsumeValue(w, b).Some?
    ensures ConsumeValue(w, b + more)
         == Some(Read(ConsumeValue(w, b).value.value, ConsumeValue(w, b).value.rest + more))
  {
    hide ConsumeFixed, VarintFrom;
    match w {
      case VarintType => VarintLocal(b, 0, more);
      case Fixed64Type => FixedLocal(b, 8, more);
      case Fixed32Type => FixedLocal(b, 4, more);
      case BytesType =>
        VarintLocal(b, 0, more);
        FixedLocal(ConsumeVarint(b).value.rest, ConsumeVarint(b).value.value, more);
      case OtherType =>
    }
  }

  /** What is read from a text is read from any longer text. */
  lemma FieldLocal(b: Bytes, more: Bytes)
    requires ConsumeField(b).Some?
    ensures ConsumeField(b + more) == Some(Read(ConsumeField(b).value.value, ConsumeField(b).value.rest + more))
  {
    hide ConsumeValue, VarintFrom;
    VarintLocal(b, 0, more);
    ValueLocal(ConsumeTag(b).value.value.wire, ConsumeTag(b).value.rest, more);
  }
}
