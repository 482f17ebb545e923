/**
 The messages of the Devin client on the wire: marshalling, and unmarshalling as
 a fold of fields into a message, last one wins.
 */
module ProtoMessageSteps {
  import opened Basics
  import opened ProtoWire

  const MAX_UNMARSHAL_BYTES: nat := 32 * 1024 * 1024
  const MAX_DELTA_TOOL_CALLS: nat := 4096
  const MAX_UINT32: nat := 0xFFFF_FFFF
  const MAX_INT32: nat := 0x7FFF_FFFF

  type uint64 = v: nat | v <= MAX_UINT64

  datatype UserJwt = UserJwt(jwt: Bytes, customUrl: Bytes)

  datatype ToolCall = ToolCall(id: Bytes, name: Bytes, arguments: Bytes)

  datatype UsageStats = UsageStats(
    input: uint64, output: uint64, cacheWrite: uint64, cacheRead: uint64,
    messageId: Bytes, modelUid: Bytes, billingUid: Bytes, requestedUid: Bytes)

  datatype ChatResponse = ChatResponse(
    messageId: Bytes, deltaText: Bytes, deltaTokens: nat, stopReason: nat, toolCalls: seq<ToolCall>,
        usage: Option<UsageStats>,
    deltaThinking: Bytes, deltaSignature: Bytes, outputId: Bytes, requestId: Bytes, signatureType: Bytes,
    actualModelUid: Option<Bytes>, phase: Bytes)

  const NO_JWT := UserJwt([], [])
  const NO_CALL := ToolCall([], [], [])
  const NO_STATS := UsageStats(0, 0, 0, 0, [], [], [], [])
  const NO_RESPONSE := ChatResponse([], [], 0, 0, [], None, [], [], [], [], [], None, [])

  // ----- Marshalling -----

  function StringField(number: nat, s: Bytes): seq<Field> {
    if s == [] then [] else [Field(number, BytesType, Payload(s))]
  }

  function VarintField(number: nat, v: nat): seq<Field> {
    if v == 0 then [] else [Field(number, VarintType, Varint(v))]
  }

  function JwtFields(m: UserJwt): seq<Field> {
    StringField(1, m.jwt) + StringField(2, m.customUrl)
  }

  function CallFields(m: ToolCall): seq<Field> {
    StringField(1, m.id) + StringField(2, m.name) + StringField(3, m.arguments)
  }

  function StatsFields(m: UsageStats): seq<Field> {
    VarintField(2, m.input) + VarintField(3, m.output) + VarintField(4, m.cacheWrite) + VarintField(5, m.cacheRead)
      + StringField(7, m.messageId) + StringField(9, m.modelUid) + StringField(10, m.billingUid)
          + StringField(11, m.requestedUid)
  }

  // ----- Unmarshalling -----

  /** What one more field makes of a message; None where the field is refused. */
  type Apply<!M> = (M, Field) -> Option<M>

  function Decode<M>(m: M, b: Bytes, apply: Apply<M>): Option<M>
    decreases |b|
  {
    if b == [] then Some(m)
    else
      var f := ConsumeField(b);
      if f.None? then None
      else
        var next := apply(m, f.value.value);
        if next.None? then None else Decode(next.value, f.value.rest, apply)
  }

  function Fold<M>(m: M, fs: seq<Field>, apply: Apply<M>): Option<M> {
    if fs == [] then Some(m)
    else
      var next := apply(m, fs[0]);
      if next.None? then None else Fold(next.value, fs[1..], apply)
  }

  predicate IsBytes(f: Field) {
    f.wire.BytesType? && f.value.Payload?
  }

  predicate IsVarint(f: Field) {
    f.wire.VarintType? && f.value.Varint? && f.value.v <= MAX_UINT64
  }

  /** A known number under another wire type is skipped here. */
  function ApplyJwt(m: UserJwt, f: Field): Option<UserJwt> {
    if IsBytes(f) && f.number == 1 then Some(m.(jwt := f.value.bytes))
    else if IsBytes(f) && f.number == 2 then Some(m.(customUrl := f.value.bytes))
    else Some(m)
  }

  /** And refused here. */
  function ApplyCall(m: ToolCall, f: Field): Option<ToolCall> {
    if f.number !in {1, 2, 3} then Some(m)
    else if !IsBytes(f) then None
    else if f.number == 1 then Some(m.(id := f.value.bytes))
    else if f.number == 2 then Some(m.(name := f.value.bytes))
    else Some(m.(arguments := f.value.bytes))
  }

  function ApplyStats(m: UsageStats, f: Field): Option<UsageStats> {
    if f.number in {2, 3, 4, 5} then
      if !IsVarint(f) then None
      else if f.number == 2 then Some(m.(input := f.value.v))
      else if f.number == 3 then Some(m.(output := f.value.v))
      else if f.number == 4 then Some(m.(cacheWrite := f.value.v))
      else Some(m.(cacheRead := f.value.v))
    else if f.number in {7, 9, 10, 11} then
      if !IsBytes(f) then None
      else if f.number == 7 then Some(m.(messageId := f.value.bytes))
      else if f.number == 9 then Some(m.(modelUid := f.value.bytes))
      else if f.number == 10 then Some(m.(billingUid := f.value.bytes))
      else Some(m.(requestedUid := f.value.bytes))
    else Some(m)
  }

  function UnmarshalJwt(b: Bytes): Option<UserJwt> {
    Decode(NO_JWT, b, ApplyJwt)
  }

  function UnmarshalCall(b: Bytes): Option<ToolCall> {
    if |b| > MAX_UNMARSHAL_BYTES then None else Decode(NO_CALL, b, ApplyCall)
  }

  function UnmarshalStats(b: Bytes): Option<UsageStats> {
    if |b| > MAX_UNMARSHAL_BYTES then None else Decode(NO_STATS, b, ApplyStats)
  }

  function SetText(m: ChatResponse, number: nat, s: Bytes): ChatResponse {
    if number == 1 then m.(messageId := s)
    else if number == 3 then m.(deltaText := s)
    else if number == 9 then m.(deltaThinking := s)
    else if number == 10 then m.(deltaSignature := s)
    else if number == 15 then m.(outputId := s)
    else if number == 17 then m.(requestId := s)
    else if number == 21 then m.(signatureType := s)
    else if number == 23 then m.(actualModelUid := Some(s))
    else m.(phase := s)
  }

  /** Tool calls add up, to a limit; a nested message replaces the one before. */
  function ApplyResponse(m: ChatResponse, f: Field): Option<ChatResponse> {
    if f.number in {1, 3, 9, 10, 15, 17, 21, 23, 25} then
      if IsBytes(f) then Some(SetText(m, f.number, f.value.bytes)) else None
    else if f.number == 4 then
      if IsVarint(f) && f.value.v <= MAX_UINT32 then Some(m.(deltaTokens := f.value.v)) else None
    else if f.number == 5 then
      if IsVarint(f) && f.value.v <= MAX_INT32 then Some(m.(stopReason := f.value.v)) else None
    else if f.number == 6 then
      if !IsBytes(f) || |m.toolCalls| >= MAX_DELTA_TOOL_CALLS then None
      else
        var call := UnmarshalCall(f.value.bytes);
        if call.None? then None else Some(m.(toolCalls := m.toolCalls + [call.value]))
    else if f.number == 7 then
      if !IsBytes(f) then None
      else
        var usage := UnmarshalStats(f.value.bytes);
        if usage.None? then None else Some(m.(usage := usage))
    else Some(m)
  }

  function UnmarshalResponse(b: Bytes): Option<ChatResponse> {
    if |b| > MAX_UNMARSHAL_BYTES then None else Decode(NO_RESPONSE, b, ApplyResponse)
  }
}

/** The codec as the program runs it: appending to a buffer, consuming a slice. */
module ProtoMessages {
  import opened Basics
  import opened ProtoWire
  import opened Steps = ProtoMessageSteps

  method AppendString(b: Bytes, number: nat, s: Bytes) returns (r: Bytes)
    ensures r == b + EncodeAll(StringField(number, s))
  {
    if s == [] { return b; }
    EncodeOne(Field(number, BytesType, Payload(s)));
    r := b + AppendTag(number, BytesType);
    r := r + AppendBytes(s);
  }

  method AppendNumber(b: Bytes, number: nat, v: nat) returns (r: Bytes)
    ensures r == b + EncodeAll(VarintField(number, v))
  {
    if v == 0 { return b; }
    EncodeOne(Field(number, VarintType, Varint(v)));
    r := b + AppendTag(number, VarintType);
    r := r + AppendVarint(v);
  }

  method MarshalJwt(m: UserJwt) returns (b: Bytes)
    ensures b == EncodeAll(JwtFields(m))
  {
    hide Encode, StringField;
    b := AppendString([], 1, m.jwt);
    b := AppendString(b, 2, m.customUrl);
    EncodeAppend(StringField(1, m.jwt), StringField(2, m.customUrl));
  }

  method MarshalCall(m: ToolCall) returns (b: Bytes)
    ensures b == EncodeAll(CallFields(m))
  {
    hide Encode, StringField;
    b := AppendString([], 1, m.id);
    b := AppendString(b, 2, m.name);
    b := AppendString(b, 3, m.arguments);
    EncodeAppend(StringField(1, m.id), StringField(2, m.name));
    EncodeAppend(StringField(1, m.id) + StringField(2, m.name), StringField(3, m.arguments));
  }

  method MarshalStats(m: UsageStats) returns (b: Bytes)
    ensures b == EncodeAll(StatsFields(m))
  {
    hide Encode, EncodeAll, StringField, VarintField;
    EncodeNone();
    b := AppendNumber([], 2, m.input);
    b := AppendNumber(b, 3, m.output);
    b := AppendNumber(b, 4, m.cacheWrite);
    b := AppendNumber(b, 5, m.cacheRead);
    ghost var fs := VarintField(2, m.input);
    EncodeAppend(fs, VarintField(3, m.output));
    fs := fs + VarintField(3, m.output);
    EncodeAppend(fs, VarintField(4, m.cacheWrite));
    fs := fs + VarintField(4, m.cacheWrite);
    EncodeAppend(fs, VarintField(5, m.cacheRead));
    fs := fs + VarintField(5, m.cacheRead);
    b := AppendString(b, 7, m.messageId);
    b := AppendString(b, 9, m.modelUid);
    b := AppendString(b, 10, m.billingUid);
    b := AppendString(b, 11, m.requestedUid);
    EncodeAppend(fs, StringField(7, m.messageId));
    fs := fs + StringField(7, m.messageId);
    EncodeAppend(fs, StringField(9, m.modelUid));
    fs := fs + StringField(9, m.modelUid);
    EncodeAppend(fs, StringField(10, m.billingUid));
    fs := fs + StringField(10, m.billingUid);
    EncodeAppend(fs, StringField(11, m.requestedUid));
  }

  lemma EncodeNone()
    ensures EncodeAll([]) == []
  {
  }

  lemma EncodeOne(f: Field)
    ensures EncodeAll([f]) == Encode(f)
  {
    hide Encode;
    assert [f][..0] == [];
    assert EncodeAll([f][..0]) == [];
  }

  lemma {:induction false} EncodeAppend(xs: seq<Field>, ys: seq<Field>)
    ensures EncodeAll(xs + ys) == EncodeAll(xs) + EncodeAll(ys)
  {
    hide Encode;
    if ys == [] {
      assert xs + ys == xs;
    } else {
      EncodeAppend(xs, ys[..|ys| - 1]);
      assert (xs + ys)[..|xs + ys| - 1] == xs + ys[..|ys| - 1];
    }
  }

  method ReadJwt(input: Bytes) returns (result: Option<UserJwt>)
    ensures result == UnmarshalJwt(input)
  {
    hide ConsumeTag, ConsumeValue, ConsumeBytes;
    var m, b := NO_JWT, input;
    while |b| > 0
      invariant Decode(m, b, ApplyJwt) == UnmarshalJwt(input)
      decreases |b|
    {
      FieldParts(b);
      var tag := ConsumeTag(b);
      if tag.None? { return None; }
      var number, wire, rest := tag.value.value.number, tag.value.value.wire, tag.value.rest;
      if (number == 1 || number == 2) && wire == BytesType {
        var s := ConsumeBytes(rest);
        if s.None? { return None; }
        if number == 1 { m := m.(jwt := s.value.value); } else { m := m.(customUrl := s.value.value); }
        b := s.value.rest;
      } else {
        var skipped := ConsumeValue(wire, rest);
        if skipped.None? { return None; }
        b := skipped.value.rest;
      }
    }
    return Some(m);
  }

  method ReadCall(input: Bytes) returns (result: Option<ToolCall>)
    ensures result == UnmarshalCall(input)
  {
    if |input| > MAX_UNMARSHAL_BYTES { return None; }
    hide ConsumeTag, ConsumeValue, ConsumeBytes;
    var m, b := NO_CALL, input;
    while |b| > 0
      invariant Decode(m, b, ApplyCall) == UnmarshalCall(input)
      decreases |b|
    {
      FieldParts(b);
      var tag := ConsumeTag(b);
      if tag.None? { return None; }
      var number, wire, rest := tag.value.value.number, tag.value.value.wire, tag.value.rest;
      if 1 <= number <= 3 {
        if wire != BytesType {
          return None;
        }
        var v := ConsumeBytes(rest);
        if v.None? { return None; }
        b := v.value.rest;
        var s := v.value.value;
        if number == 1 {
          m := m.(id := s);
        } else if number == 2 {
          m := m.(name := s);
        } else {
          m := m.(arguments := s);
        }
      } else {
        var skipped := ConsumeValue(wire, rest);
        if skipped.None? { return None; }
        b := skipped.value.rest;
      }
    }
    return Some(m);
  }

  function AsPayload(v: Option<Read<Bytes>>): Option<Read<Value>> {
    if v.None? then None else Some(Read(Payload(v.value.value), v.value.rest))
  }

  function AsVarint(v: Option<Read<nat>>): Option<Read<Value>> {
    if v.None? then None else Some(Read(Varint(v.value.value), v.value.rest))
  }

  /** A field is its tag and then its value. */
  lemma FieldParts(b: Bytes)
    ensures var tag := ConsumeTag(b);
            ConsumeField(b) ==
              if tag.None? then None
              else
                var value := ConsumeValue(tag.value.value.wire, tag.value.rest);
                if value.None? then None
                else Some(Read(Field(tag.value.value.number, tag.value.value.wire, value.value.value),
                               value.value.rest))
    ensures forall rest :: ConsumeValue(BytesType, rest) == AsPayload(ConsumeBytes(rest))
    ensures forall rest :: ConsumeValue(VarintType, rest) == AsVarint(ConsumeVarint(rest))
    ensures forall rest :: ConsumeVarint(rest).Some? ==> ConsumeVarint(rest).value.value <= MAX_UINT64
  {
    LimitIsUint64();
  }

  method ReadStats(input: Bytes) returns (result: Option<UsageStats>)
    ensures result == UnmarshalStats(input)
  {
    if |input| > MAX_UNMARSHAL_BYTES { return None; }
    hide ConsumeTag, ConsumeValue, ConsumeBytes, ConsumeVarint;
    var m, b := NO_STATS, input;
    while |b| > 0
      invariant Decode(m, b, ApplyStats) == UnmarshalStats(input)
      decreases |b|
    {
      FieldParts(b);
      var tag := ConsumeTag(b);
      if tag.None? { return None; }
      var number, wire, rest := tag.value.value.number, tag.value.value.wire, tag.value.rest;
      if number in {2, 3, 4, 5} {
        if wire != VarintType { return None; }
        var v := ConsumeVarint(rest);
        if v.None? { return None; }
        b := v.value.rest;
        m := ApplyStats(m, Field(number, wire, Varint(v.value.value))).value;
      } else if number in {7, 9, 10, 11} {
        if wire != BytesType { return None; }
        var v := ConsumeBytes(rest);
        if v.None? { return None; }
        b := v.value.rest;
        m := ApplyStats(m, Field(number, wire, Payload(v.value.value))).value;
      } else {
        var skipped := ConsumeValue(wire, rest);
        if skipped.None? { return None; }
        b := skipped.value.rest;
      }
    }
    return Some(m);
  }

  method ReadResponse(input: Bytes) returns (result: Option<ChatResponse>)
    ensures result == UnmarshalResponse(input)
  {
    if |input| > MAX_UNMARSHAL_BYTES { return None; }
    hide ConsumeTag, ConsumeValue, ConsumeBytes, ConsumeVarint, UnmarshalCall, UnmarshalStats, SetText;
    var m, b := NO_RESPONSE, input;
    while |b| > 0
      invariant Decode(m, b, ApplyResponse) == UnmarshalResponse(input)
      decreases |b|
    {
      FieldParts(b);
      var tag := ConsumeTag(b);
      if tag.None? { return None; }
      var number, wire, rest := tag.value.value.number, tag.value.value.wire, tag.value.rest;
      if number in {1, 3, 9, 10, 15, 17, 21, 23, 25} {
        if wire != BytesType { return None; }
        var v := ConsumeBytes(rest);
        if v.None? { return None; }
        b := v.value.rest;
        m := SetText(m, number, v.value.value);
      } else if number == 4 || number == 5 {
        if wire != VarintType { return None; }
        var v := ConsumeVarint(rest);
        if v.None? { return None; }
        b := v.value.rest;
        if number == 4 && v.value.value > MAX_UINT32 { return None; }
        if number == 5 && v.value.value > MAX_INT32 { return None; }
        if number == 4 { m := m.(deltaTokens := v.value.value); } else { m := m.(stopReason := v.value.value); }
      } else if number == 6 {
        if wire != BytesType { return None; }
        if |m.toolCalls| >= MAX_DELTA_TOOL_CALLS { return None; }
        var v := ConsumeBytes(rest);
        if v.None? { return None; }
        b := v.value.rest;
        var call := ReadCall(v.value.value);
        if call.None? { return None; }
        m := m.(toolCalls := m.toolCalls + [call.value]);
      } else if number == 7 {
        if wire != BytesType { return None; }
        var v := ConsumeBytes(rest);
        if v.None? { return None; }
        b := v.value.rest;
        var usage := ReadStats(v.value.value);
        if usage.None? { return None; }
        m := m.(usage := usage);
      } else {
        var skipped := ConsumeValue(wire, rest);
        if skipped.None? { return None; }
        b := skipped.value.rest;
      }
    }
    return Some(m);
  }
}

/** Round trips, last one wins, and unknown fields. */
module ProtoLaws {
  import opened Basics
  import opened ProtoWire
  import opened ProtoMessageSteps
  import opened ProtoMessages

  // ----- Any message -----

  lemma {:induction false} DecodeAppend<M>(m: M, x: Bytes, y: Bytes, apply: Apply<M>)
    requires Decode(m, x, apply).Some?
    ensures Decode(m, x + y, apply) == Decode(Decode(m, x, apply).value, y, apply)
    decreases |x|
  {
    hide ConsumeField;
    if x == [] {
      assert x + y == y;
    } else {
      FieldLocal(x, y);
      var f := ConsumeField(x).value;
      DecodeAppend(apply(m, f.value).value, f.rest, y, apply);
    }
  }

  ghost predicate AllValid(fs: seq<Field>) {
    forall k :: 0 <= k < |fs| ==> fs[k].Valid()
  }

  lemma {:induction false} EncodeFirst(fs: seq<Field>)
    requires fs != []
    ensures EncodeAll(fs) == Encode(fs[0]) + EncodeAll(fs[1..])
  {
    hide Encode;
    assert fs == [fs[0]] + fs[1..];
    EncodeAppend([fs[0]], fs[1..]);
    EncodeOne(fs[0]);
  }

  lemma {:induction false} DecodeFields<M>(m: M, fs: seq<Field>, apply: Apply<M>)
    requires AllValid(fs)
    ensures Decode(m, EncodeAll(fs), apply) == Fold(m, fs, apply)
    decreases |fs|
  {
    hide ConsumeField, Encode;
    if fs != [] {
      EncodeFirst(fs);
      ReadsField(fs[0], EncodeAll(fs[1..]));
      EncodedSome(fs[0]);
      if apply(m, fs[0]).Some? {
        DecodeFields(apply(m, fs[0]).value, fs[1..], apply);
      }
    }
  }

  lemma EncodedSome(f: Field)
    ensures Encode(f) != []
  {
  }

  /** A field that leaves every message alone may be inserted between any two fields: nothing changes. */
  lemma UnknownIgnored<M(!new)>(m: M, x: Bytes, u: Field, y: Bytes, apply: Apply<M>)
    requires Decode(m, x, apply).Some? && u.Valid() && forall other :: apply(other, u) == Some(other)
    ensures Decode(m, x + (Encode(u) + y), apply) == Decode(m, x + y, apply)
  {
    hide ConsumeField, Encode;
    DecodeAppend(m, x, Encode(u) + y, apply);
    DecodeAppend(m, x, y, apply);
    ReadsField(u, y);
    EncodedSome(u);
    var before := Decode(m, x, apply).value;
    assert Decode(before, Encode(u) + y, apply) == Decode(before, y, apply);
  }

  lemma {:induction false} FoldAppend<M>(m: M, xs: seq<Field>, ys: seq<Field>, apply: Apply<M>)
    requires Fold(m, xs, apply).Some?
    ensures Fold(m, xs + ys, apply) == Fold(Fold(m, xs, apply).value, ys, apply)
    decreases |xs|
  {
    if xs == [] {
      assert xs + ys == ys;
    } else {
      FoldAppend(apply(m, xs[0]).value, xs[1..], ys, apply);
      assert (xs + ys)[1..] == xs[1..] + ys;
    }
  }

  lemma FoldOne<M>(m: M, f: Field, apply: Apply<M>)
    ensures Fold(m, [f], apply) == apply(m, f)
  {
    assert apply(m, f).Some? ==> Fold(apply(m, f).value, [f][1..], apply) == apply(m, f);
  }

  /** The later value, unless it was left out. */
  function Over(a: Bytes, b: Bytes): Bytes {
    if b == [] then a else b
  }

  function OverNumber(a: uint64, b: uint64): uint64 {
    if b == 0 then a else b
  }

  function MergeJwt(a: UserJwt, b: UserJwt): UserJwt {
    UserJwt(Over(a.jwt, b.jwt), Over(a.customUrl, b.customUrl))
  }

  function MergeCall(a: ToolCall, b: ToolCall): ToolCall {
    ToolCall(Over(a.id, b.id), Over(a.name, b.name), Over(a.arguments, b.arguments))
  }

  function MergeStats(a: UsageStats, b: UsageStats): UsageStats {
    UsageStats(OverNumber(a.input, b.input), OverNumber(a.output, b.output), OverNumber(a.cacheWrite, b.cacheWrite),
               OverNumber(a.cacheRead, b.cacheRead), Over(a.messageId, b.messageId), Over(a.modelUid, b.modelUid),
               Over(a.billingUid, b.billingUid), Over(a.requestedUid, b.requestedUid))
  }

  // ----- Folding the fields of a message over another -----

  lemma FoldString<M>(m: M, number: nat, s: Bytes, apply: Apply<M>)
    ensures Fold(m, StringField(number, s), apply) == if s == [] then Some(m)
            else apply(m, Field(number, BytesType, Payload(s)))
  {
    if s != [] { FoldOne(m, Field(number, BytesType, Payload(s)), apply); }
  }

  lemma FoldNumber<M>(m: M, number: nat, v: nat, apply: Apply<M>)
    ensures Fold(m, VarintField(number, v), apply) == if v == 0 then Some(m)
            else apply(m, Field(number, VarintType, Varint(v)))
  {
    if v != 0 { FoldOne(m, Field(number, VarintType, Varint(v)), apply); }
  }

  lemma FoldJwt(a: UserJwt, b: UserJwt)
    ensures Fold(a, JwtFields(b), ApplyJwt) == Some(MergeJwt(a, b))
  {
    hide Fold, StringField;
    FoldString(a, 1, b.jwt, ApplyJwt);
    FoldAppend(a, StringField(1, b.jwt), StringField(2, b.customUrl), ApplyJwt);
    FoldString(a.(jwt := Over(a.jwt, b.jwt)), 2, b.customUrl, ApplyJwt);
  }

  lemma FoldCall(a: ToolCall, b: ToolCall)
    ensures Fold(a, CallFields(b), ApplyCall) == Some(MergeCall(a, b))
  {
    hide Fold, StringField;
    var a1 := a.(id := Over(a.id, b.id));
    var a2 := a1.(name := Over(a.name, b.name));
    FoldString(a, 1, b.id, ApplyCall);
    FoldString(a1, 2, b.name, ApplyCall);
    FoldString(a2, 3, b.arguments, ApplyCall);
    FoldAppend(a, StringField(1, b.id), StringField(2, b.name), ApplyCall);
    FoldAppend(a, StringField(1, b.id) + StringField(2, b.name), StringField(3, b.arguments), ApplyCall);
  }

  /** One more field of the usage statistics, after some fields already folded. */
  lemma FoldStatsString(a: UsageStats, fs: seq<Field>, m: UsageStats, number: nat, s: Bytes)
    requires Fold(a, fs, ApplyStats) == Some(m) && number in {7, 9, 10, 11}
    ensures Fold(a, fs + StringField(number, s), ApplyStats) == if s == [] then Some(m)
            else ApplyStats(m, Field(number, BytesType, Payload(s)))
  {
    hide Fold, StringField, ApplyStats;
    FoldAppend(a, fs, StringField(number, s), ApplyStats);
    FoldString(m, number, s, ApplyStats);
  }

  lemma FoldStatsNumber(a: UsageStats, fs: seq<Field>, m: UsageStats, number: nat, v: uint64)
    requires Fold(a, fs, ApplyStats) == Some(m) && number in {2, 3, 4, 5}
    ensures Fold(a, fs + VarintField(number, v), ApplyStats) == if v == 0 then Some(m)
            else ApplyStats(m, Field(number, VarintType, Varint(v)))
  {
    hide Fold, VarintField, ApplyStats;
    FoldAppend(a, fs, VarintField(number, v), ApplyStats);
    FoldNumber(m, number, v, ApplyStats);
  }

  lemma FoldStatsNumbers(a: UsageStats, b: UsageStats)
    ensures Fold(a,
                 VarintField(2, b.input) + VarintField(3, b.output) + VarintField(4, b.cacheWrite)
                     + VarintField(5, b.cacheRead), ApplyStats)
         == Some(a.(input := OverNumber(a.input, b.input), output := OverNumber(a.output, b.output),
                    cacheWrite := OverNumber(a.cacheWrite, b.cacheWrite),
                        cacheRead := OverNumber(a.cacheRead, b.cacheRead)))
  {
    hide Fold, VarintField;
    FoldNumber(a, 2, b.input, ApplyStats);
    var a1 := a.(input := OverNumber(a.input, b.input));
    var a2 := a1.(output := OverNumber(a.output, b.output));
    var a3 := a2.(cacheWrite := OverNumber(a.cacheWrite, b.cacheWrite));
    FoldStatsNumber(a, VarintField(2, b.input), a1, 3, b.output);
    FoldStatsNumber(a, VarintField(2, b.input) + VarintField(3, b.output), a2, 4, b.cacheWrite);
    FoldStatsNumber(a, VarintField(2, b.input) + VarintField(3, b.output) + VarintField(4, b.cacheWrite), a3, 5,
                    b.cacheRead);
  }

  lemma FoldStats(a: UsageStats, b: UsageStats)
    ensures Fold(a, StatsFields(b), ApplyStats) == Some(MergeStats(a, b))
  {
    hide Fold, VarintField, StringField;
    var numbers := VarintField(2, b.input) + VarintField(3, b.output) + VarintField(4, b.cacheWrite)
                     + VarintField(5, b.cacheRead);
    FoldStatsNumbers(a, b);
    var a4 := a.(input := OverNumber(a.input, b.input), output := OverNumber(a.output, b.output),
                 cacheWrite := OverNumber(a.cacheWrite, b.cacheWrite),
                     cacheRead := OverNumber(a.cacheRead, b.cacheRead));
    var a5 := a4.(messageId := Over(a.messageId, b.messageId));
    var a6 := a5.(modelUid := Over(a.modelUid, b.modelUid));
    var a7 := a6.(billingUid := Over(a.billingUid, b.billingUid));
    FoldStatsString(a, numbers, a4, 7, b.messageId);
    FoldStatsString(a, numbers + StringField(7, b.messageId), a5, 9, b.modelUid);
    FoldStatsString(a, numbers + StringField(7, b.messageId) + StringField(9, b.modelUid), a6, 10, b.billingUid);
    FoldStatsString(a,
                    numbers + StringField(7, b.messageId) + StringField(9, b.modelUid) + StringField(10, b.billingUid),
                        a7, 11, b.requestedUid);
  }

  // ----- Main results -----

  /** Lengths that a varint can hold: those of every text there is. */
  predicate Fits(s: Bytes) {
    |s| <= MAX_UINT64
  }

  predicate JwtFits(m: UserJwt) {
    Fits(m.jwt) && Fits(m.customUrl)
  }

  predicate CallFits(m: ToolCall) {
    Fits(m.id) && Fits(m.name) && Fits(m.arguments)
  }

  predicate StatsFits(m: UsageStats) {
    Fits(m.messageId) && Fits(m.modelUid) && Fits(m.billingUid) && Fits(m.requestedUid)
  }

  function MarshalledJwt(m: UserJwt): Bytes {
    EncodeAll(JwtFields(m))
  }

  function MarshalledCall(m: ToolCall): Bytes {
    EncodeAll(CallFields(m))
  }

  function MarshalledStats(m: UsageStats): Bytes {
    EncodeAll(StatsFields(m))
  }

  /** Decoding a marshalled message over another merges the two. */
  lemma DecodeJwt(a: UserJwt, b: UserJwt)
    requires JwtFits(b)
    ensures Decode(a, MarshalledJwt(b), ApplyJwt) == Some(MergeJwt(a, b))
  {
    DecodeFields(a, JwtFields(b), ApplyJwt);
    FoldJwt(a, b);
    hide Fold, EncodeAll;
  }

  lemma DecodeCall(a: ToolCall, b: ToolCall)
    requires CallFits(b)
    ensures Decode(a, MarshalledCall(b), ApplyCall) == Some(MergeCall(a, b))
  {
    DecodeFields(a, CallFields(b), ApplyCall);
    FoldCall(a, b);
    hide Fold, EncodeAll;
  }

  lemma DecodeStats(a: UsageStats, b: UsageStats)
    requires StatsFits(b)
    ensures Decode(a, MarshalledStats(b), ApplyStats) == Some(MergeStats(a, b))
  {
    StatsFieldsValid(b);
    hide StatsFields;
    DecodeFields(a, StatsFields(b), ApplyStats);
    FoldStats(a, b);
    hide Fold, EncodeAll;
  }

  lemma StatsFieldsValid(m: UsageStats)
    requires StatsFits(m)
    ensures AllValid(StatsFields(m))
  {
    NumberValid(2, m.input);
    NumberValid(3, m.output);
    NumberValid(4, m.cacheWrite);
    NumberValid(5, m.cacheRead);
    StringValid(7, m.messageId);
    StringValid(9, m.modelUid);
    StringValid(10, m.billingUid);
    StringValid(11, m.requestedUid);
    hide VarintField, StringField;
  }

  lemma NumberValid(number: nat, v: uint64)
    requires 1 <= number <= MAX_FIELD_NUMBER
    ensures AllValid(VarintField(number, v))
  {
  }

  lemma StringValid(number: nat, s: Bytes)
    requires 1 <= number <= MAX_FIELD_NUMBER && Fits(s)
    ensures AllValid(StringField(number, s))
  {
  }

  /** Round trips, up to the size limit where there is one. */
  lemma JwtRoundTrip(m: UserJwt)
    requires JwtFits(m)
    ensures UnmarshalJwt(MarshalledJwt(m)) == Some(m)
  {
    DecodeJwt(NO_JWT, m);
  }

  lemma CallRoundTrip(m: ToolCall)
    requires CallFits(m)
    ensures UnmarshalCall(MarshalledCall(m)) == if |MarshalledCall(m)| <= MAX_UNMARSHAL_BYTES then Some(m) else None
  {
    DecodeCall(NO_CALL, m);
  }

  lemma StatsRoundTrip(m: UsageStats)
    requires StatsFits(m)
    ensures UnmarshalStats(MarshalledStats(m)) == if |MarshalledStats(m)| <= MAX_UNMARSHAL_BYTES then Some(m) else None
  {
    DecodeStats(NO_STATS, m);
  }

  /** Two encodings one after the other: field by field, the last one wins. */
  lemma JwtsMerge(a: UserJwt, b: UserJwt)
    requires JwtFits(a) && JwtFits(b)
    ensures UnmarshalJwt(MarshalledJwt(a) + MarshalledJwt(b)) == Some(MergeJwt(a, b))
  {
    hide MarshalledJwt, ApplyJwt;
    DecodeJwt(NO_JWT, a);
    DecodeJwt(a, b);
    assert MergeJwt(NO_JWT, a) == a;
    DecodeAppend(NO_JWT, MarshalledJwt(a), MarshalledJwt(b), ApplyJwt);
  }

  lemma CallsMerge(a: ToolCall, b: ToolCall)
    requires CallFits(a) && CallFits(b)
    ensures var both := MarshalledCall(a) + MarshalledCall(b);
            UnmarshalCall(both) == if |both| <= MAX_UNMARSHAL_BYTES then Some(MergeCall(a, b)) else None
  {
    hide MarshalledCall, ApplyCall;
    DecodeCall(NO_CALL, a);
    DecodeCall(a, b);
    assert MergeCall(NO_CALL, a) == a;
    DecodeAppend(NO_CALL, MarshalledCall(a), MarshalledCall(b), ApplyCall);
  }

  lemma StatsMerge(a: UsageStats, b: UsageStats)
    requires StatsFits(a) && StatsFits(b)
    ensures var both := MarshalledStats(a) + MarshalledStats(b);
            UnmarshalStats(both) == if |both| <= MAX_UNMARSHAL_BYTES then Some(MergeStats(a, b)) else None
  {
    hide MarshalledStats, ApplyStats;
    DecodeStats(NO_STATS, a);
    DecodeStats(a, b);
    assert MergeStats(NO_STATS, a) == a;
    DecodeAppend(NO_STATS, MarshalledStats(a), MarshalledStats(b), ApplyStats);
  }

  /** An unknown field of any wire type, inserted between any two fields, changes nothing within the size limit. */
  lemma JwtIgnoresUnknown(x: Bytes, u: Field, y: Bytes)
    requires Decode(NO_JWT, x, ApplyJwt).Some? && u.Valid() && !(u.wire.BytesType? && u.number in {1, 2})
    ensures UnmarshalJwt(x + (Encode(u) + y)) == UnmarshalJwt(x + y)
  {
    hide Encode, Decode;
    UnknownIgnored(NO_JWT, x, u, y, ApplyJwt);
  }

  lemma CallIgnoresUnknown(x: Bytes, u: Field, y: Bytes)
    requires Decode(NO_CALL, x, ApplyCall).Some? && u.Valid() && u.number !in {1, 2, 3}
    requires |x| + |Encode(u)| + |y| <= MAX_UNMARSHAL_BYTES
    ensures UnmarshalCall(x + (Encode(u) + y)) == UnmarshalCall(x + y)
  {
    hide Encode, Decode;
    UnknownIgnored(NO_CALL, x, u, y, ApplyCall);
  }

  lemma StatsIgnoreUnknown(x: Bytes, u: Field, y: Bytes)
    requires Decode(NO_STATS, x, ApplyStats).Some? && u.Valid() && u.number !in {2, 3, 4, 5, 7, 9, 10, 11}
    requires |x| + |Encode(u)| + |y| <= MAX_UNMARSHAL_BYTES
    ensures UnmarshalStats(x + (Encode(u) + y)) == UnmarshalStats(x + y)
  {
    hide Encode, Decode;
    UnknownIgnored(NO_STATS, x, u, y, ApplyStats);
  }

  lemma ResponseIgnoresUnknown(x: Bytes, u: Field, y: Bytes)
    requires Decode(NO_RESPONSE, x, ApplyResponse).Some? && u.Valid()
    requires u.number !in {1, 3, 4, 5, 6, 7, 9, 10, 15, 17, 21, 23, 25}
    requires |x| + |Encode(u)| + |y| <= MAX_UNMARSHAL_BYTES
    ensures UnmarshalResponse(x + (Encode(u) + y)) == UnmarshalResponse(x + y)
  {
    hide Encode, Decode;
    UnknownIgnored(NO_RESPONSE, x, u, y, ApplyResponse);
  }

  function CallField(call: ToolCall): Field {
    Field(6, BytesType, Payload(MarshalledCall(call)))
  }

  function CallFieldsOf(calls: seq<ToolCall>): seq<Field> {
    seq(|calls|, k requires 0 <= k < |calls| => CallField(calls[k]))
  }

  /** Repeated tool calls are appended in order, and refused beyond the limit. */
  lemma {:induction false} ResponseCollectsCalls(m: ChatResponse, calls: seq<ToolCall>)
    requires |m.toolCalls| <= MAX_DELTA_TOOL_CALLS
    requires forall k :: 0 <= k < |calls| ==> CallFits(calls[k]) && |MarshalledCall(calls[k])| <= MAX_UNMARSHAL_BYTES
    ensures Decode(m, EncodeAll(CallFieldsOf(calls)), ApplyResponse)
         == if |m.toolCalls| + |calls| <= MAX_DELTA_TOOL_CALLS then Some(m.(toolCalls := m.toolCalls + calls)) else None
    decreases |calls|
  {
    hide MarshalledCall, UnmarshalCall, Encode, ConsumeField;
    var fs := CallFieldsOf(calls);
    if calls == [] {
      assert m.toolCalls + calls == m.toolCalls;
    } else {
      EncodeFirst(fs);
      assert fs[1..] == CallFieldsOf(calls[1..]);
      ReadsField(fs[0], EncodeAll(fs[1..]));
      EncodedSome(fs[0]);
      CallRoundTrip(calls[0]);
      if |m.toolCalls| < MAX_DELTA_TOOL_CALLS {
        var next := m.(toolCalls := m.toolCalls + [calls[0]]);
        ResponseCollectsCalls(next, calls[1..]);
        assert m.toolCalls + [calls[0]] + calls[1..] == m.toolCalls + calls;
      }
    }
  }
}
