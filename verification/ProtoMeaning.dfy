/**
 Which field of the wire every member of a message comes from, for every list of
 fields: texts and numbers from the last field of their number, tool calls from
 all of theirs.
 */
module ProtoMeaning {
  import opened Basics
  import opened ProtoWire
  import opened ProtoMessageSteps
  import opened ProtoLaws

  predicate IsText(f: Field, number: nat) {
    f.number == number && f.wire == BytesType && f.value.Payload?
  }

  predicate IsNumber(f: Field, number: nat) {
    f.number == number && f.wire == VarintType && f.value.Varint?
  }

  function TextOf(f: Field, number: nat, before: Bytes): Bytes {
    if IsText(f, number) then f.value.bytes else before
  }

  function NumberOf(f: Field, number: nat, before: nat): nat {
    if IsNumber(f, number) then f.value.v else before
  }

  /** The payload of the last field with a number. */
  function LastText(fs: seq<Field>, number: nat, before: Bytes): Bytes
    decreases fs
  {
    if fs == [] then before else LastText(fs[1..], number, TextOf(fs[0], number, before))
  }

  function LastNumber(fs: seq<Field>, number: nat, before: nat): nat
    decreases fs
  {
    if fs == [] then before else LastNumber(fs[1..], number, NumberOf(fs[0], number, before))
  }

  /** Fields with these numbers all have one wire type. */
  predicate AllTexts(fs: seq<Field>, numbers: set<nat>) {
    forall i :: 0 <= i < |fs| && fs[i].number in numbers ==> IsText(fs[i], fs[i].number)
  }

  predicate AllNumbers(fs: seq<Field>, numbers: set<nat>) {
    forall i :: 0 <= i < |fs| && fs[i].number in numbers ==> IsNumber(fs[i], fs[i].number)
  }

  // ----- Tool calls, statistics and tokens -----

  lemma {:induction false} CallFold(m: ToolCall, fs: seq<Field>)
    requires AllValid(fs)
    ensures var r := Fold(m, fs, ApplyCall);
            && (r.Some? <==> AllTexts(fs, {1, 2, 3}))
            && (r.Some? ==>
                 r.value == ToolCall(LastText(fs, 1, m.id), LastText(fs, 2, m.name), LastText(fs, 3, m.arguments)))
    decreases |fs|
  {
    if fs != [] {
      var next := ApplyCall(m, fs[0]);
      assert AllTexts(fs, {1, 2, 3}) ==> AllTexts(fs[1..], {1, 2, 3});
      if next.Some? { CallFold(next.value, fs[1..]); }
    }
  }

  lemma {:induction false} JwtFold(m: UserJwt, fs: seq<Field>)
    requires AllValid(fs)
    ensures Fold(m, fs, ApplyJwt) == Some(UserJwt(LastText(fs, 1, m.jwt), LastText(fs, 2, m.customUrl)))
    decreases |fs|
  {
    if fs != [] { JwtFold(ApplyJwt(m, fs[0]).value, fs[1..]); }
  }

  function StatsOf(fs: seq<Field>, m: UsageStats): (nat, nat, nat, nat, Bytes, Bytes, Bytes, Bytes) {
    (LastNumber(fs, 2, m.input), LastNumber(fs, 3, m.output), LastNumber(fs, 4, m.cacheWrite),
     LastNumber(fs, 5, m.cacheRead), LastText(fs, 7, m.messageId), LastText(fs, 9, m.modelUid),
     LastText(fs, 10, m.billingUid), LastText(fs, 11, m.requestedUid))
  }

  function Members(m: UsageStats): (nat, nat, nat, nat, Bytes, Bytes, Bytes, Bytes) {
    (m.input, m.output, m.cacheWrite, m.cacheRead, m.messageId, m.modelUid, m.billingUid, m.requestedUid)
  }

  lemma {:induction false} StatsFold(m: UsageStats, fs: seq<Field>)
    requires AllValid(fs)
    ensures var r := Fold(m, fs, ApplyStats);
            && (r.Some? <==> AllNumbers(fs, {2, 3, 4, 5}) && AllTexts(fs, {7, 9, 10, 11}))
            && (r.Some? ==> Members(r.value) == StatsOf(fs, m))
    decreases |fs|
  {
    if fs != [] {
      var next := ApplyStats(m, fs[0]);
      if next.Some? { StatsFold(next.value, fs[1..]); }
    }
  }

  // ----- Chat responses -----

  /** The embedded tool calls, in order. */
  function CallsIn(fs: seq<Field>): (calls: seq<Option<ToolCall>>)
    decreases fs
  {
    if fs == [] then []
    else (if IsText(fs[0], 6) then [UnmarshalCall(fs[0].value.bytes)] else []) + CallsIn(fs[1..])
  }

  predicate AllSome(calls: seq<Option<ToolCall>>) {
    forall i :: 0 <= i < |calls| ==> calls[i].Some?
  }

  function Decoded(calls: seq<Option<ToolCall>>): seq<ToolCall>
    requires AllSome(calls)
  {
    seq(|calls|, i requires 0 <= i < |calls| => calls[i].value)
  }

  function UsageIn(f: Field, before: Option<UsageStats>): Option<UsageStats> {
    if IsText(f, 7) then UnmarshalStats(f.value.bytes) else before
  }

  function ModelIn(f: Field, before: Option<Bytes>): Option<Bytes> {
    if IsText(f, 23) then Some(f.value.bytes) else before
  }

  /** The statistics in the last field of theirs. */
  function LastStats(fs: seq<Field>, before: Option<UsageStats>): Option<UsageStats>
    decreases fs
  {
    if fs == [] then before else LastStats(fs[1..], UsageIn(fs[0], before))
  }

  function LastModel(fs: seq<Field>, before: Option<Bytes>): Option<Bytes>
    decreases fs
  {
    if fs == [] then before else LastModel(fs[1..], ModelIn(fs[0], before))
  }

  const TEXTS := {1, 3, 9, 10, 15, 17, 21, 23, 25}

  /** A field that a chat response takes or skips. */
  predicate IsTaken(f: Field) {
    if f.number in TEXTS then IsText(f, f.number)
    else if f.number == 4 then IsNumber(f, 4) && f.value.v <= MAX_UINT32
    else if f.number == 5 then IsNumber(f, 5) && f.value.v <= MAX_INT32
    else if f.number == 6 then IsText(f, 6) && UnmarshalCall(f.value.bytes).Some?
    else if f.number == 7 then IsText(f, 7) && UnmarshalStats(f.value.bytes).Some?
    else true
  }

  predicate AllTaken(fs: seq<Field>) {
    forall i :: 0 <= i < |fs| ==> IsTaken(fs[i])
  }

  /** Every member is where the wire has it. */
  ghost predicate ResponseSays(r: ChatResponse, m: ChatResponse, fs: seq<Field>) {
    && r.messageId == LastText(fs, 1, m.messageId) && r.deltaText == LastText(fs, 3, m.deltaText)
    && r.deltaTokens == LastNumber(fs, 4, m.deltaTokens) && r.stopReason == LastNumber(fs, 5, m.stopReason)
    && r.usage == LastStats(fs, m.usage)
    && r.deltaThinking == LastText(fs, 9, m.deltaThinking) && r.deltaSignature == LastText(fs, 10, m.deltaSignature)
    && r.outputId == LastText(fs, 15, m.outputId) && r.requestId == LastText(fs, 17, m.requestId)
    && r.signatureType == LastText(fs, 21, m.signatureType) && r.actualModelUid == LastModel(fs, m.actualModelUid)
    && r.phase == LastText(fs, 25, m.phase)
  }

  ghost predicate CallsSay(r: ChatResponse, m: ChatResponse, fs: seq<Field>) {
    AllSome(CallsIn(fs)) && r.toolCalls == m.toolCalls + Decoded(CallsIn(fs))
  }

  predicate FieldSays(r: ChatResponse, m: ChatResponse, f: Field) {
    && r.messageId == TextOf(f, 1, m.messageId) && r.deltaText == TextOf(f, 3, m.deltaText)
    && r.deltaTokens == NumberOf(f, 4, m.deltaTokens) && r.stopReason == NumberOf(f, 5, m.stopReason)
    && r.usage == UsageIn(f, m.usage)
    && r.deltaThinking == TextOf(f, 9, m.deltaThinking) && r.deltaSignature == TextOf(f, 10, m.deltaSignature)
    && r.outputId == TextOf(f, 15, m.outputId) && r.requestId == TextOf(f, 17, m.requestId)
    && r.signatureType == TextOf(f, 21, m.signatureType) && r.actualModelUid == ModelIn(f, m.actualModelUid)
    && r.phase == TextOf(f, 25, m.phase)
  }

  lemma OneField(m: ChatResponse, f: Field)
    requires f.Valid() && |m.toolCalls| <= MAX_DELTA_TOOL_CALLS
    ensures var r := ApplyResponse(m, f);
            && (r.Some? <==> IsTaken(f) && |m.toolCalls + Calls(f)| <= MAX_DELTA_TOOL_CALLS)
            && (r.Some? ==> FieldSays(r.value, m, f) && r.value.toolCalls == m.toolCalls + Calls(f))
  {
    hide UnmarshalCall, UnmarshalStats;
  }

  /** The tool call of a field, if it has one. */
  function Calls(f: Field): seq<ToolCall> {
    if IsText(f, 6) && UnmarshalCall(f.value.bytes).Some? then [UnmarshalCall(f.value.bytes).value] else []
  }

  lemma {:induction false} ResponseFold(m: ChatResponse, fs: seq<Field>)
    requires AllValid(fs) && |m.toolCalls| <= MAX_DELTA_TOOL_CALLS
    ensures var r := Fold(m, fs, ApplyResponse);
            && (r.Some? <==> AllTaken(fs) && |m.toolCalls| + |CallsIn(fs)| <= MAX_DELTA_TOOL_CALLS)
            && (r.Some? ==> ResponseSays(r.value, m, fs) && CallsSay(r.value, m, fs))
    decreases |fs|
  {
    hide ApplyResponse, UnmarshalCall, UnmarshalStats;
    if fs != [] {
      var next := ApplyResponse(m, fs[0]);
      OneField(m, fs[0]);
      TakenFirst(fs);
      if IsTaken(fs[0]) { CallsCount(fs); }
      hide IsTaken, Calls;
      if next.Some? {
        ResponseFold(next.value, fs[1..]);
        CallsFirst(m, next.value, fs);
        SaysFirst(m, next.value, fs);
      }
    }
  }

  lemma TakenFirst(fs: seq<Field>)
    requires fs != []
    ensures AllTaken(fs) <==> IsTaken(fs[0]) && AllTaken(fs[1..])
  {
    hide IsTaken;
    if IsTaken(fs[0]) && AllTaken(fs[1..]) {
      forall i | 0 <= i < |fs| ensures IsTaken(fs[i]) { if i > 0 { assert fs[i] == fs[1..][i - 1]; } }
    }
  }

  lemma CallsCount(fs: seq<Field>)
    requires fs != [] && IsTaken(fs[0])
    ensures |CallsIn(fs)| == |Calls(fs[0])| + |CallsIn(fs[1..])|
  {
    hide UnmarshalCall, UnmarshalStats;
  }

  lemma CallsFirst(m: ChatResponse, next: ChatResponse, fs: seq<Field>)
    requires fs != [] && IsTaken(fs[0]) && next.toolCalls == m.toolCalls + Calls(fs[0])
    ensures forall r: ChatResponse :: CallsSay(r, next, fs[1..]) ==> CallsSay(r, m, fs)
  {
    hide CallsSay;
    forall r: ChatResponse | CallsSay(r, next, fs[1..]) ensures CallsSay(r, m, fs) {
      CallsFirstFor(r, m, next, fs);
    }
  }

  lemma CallsFirstFor(r: ChatResponse, m: ChatResponse, next: ChatResponse, fs: seq<Field>)
    requires fs != [] && IsTaken(fs[0]) && next.toolCalls == m.toolCalls + Calls(fs[0]) && CallsSay(r, next, fs[1..])
    ensures CallsSay(r, m, fs)
  {
    FirstDecoded(fs);
    hide UnmarshalCall, UnmarshalStats, CallsIn, Decoded, Calls, IsTaken, AllSome;
    Behind(m.toolCalls, Calls(fs[0]), Decoded(CallsIn(fs[1..])));
  }

  lemma Behind(a: seq<ToolCall>, b: seq<ToolCall>, c: seq<ToolCall>)
    ensures (a + b) + c == a + (b + c)
  {
  }

  lemma FirstDecoded(fs: seq<Field>)
    requires fs != [] && IsTaken(fs[0]) && AllSome(CallsIn(fs[1..]))
    ensures AllSome(CallsIn(fs)) && Decoded(CallsIn(fs)) == Calls(fs[0]) + Decoded(CallsIn(fs[1..]))
  {
    hide UnmarshalCall, UnmarshalStats, Decoded, AllSome, CallsIn, Calls;
    if IsText(fs[0], 6) {
      CallDecoded(fs, UnmarshalCall(fs[0].value.bytes).value);
    } else {
      OtherDecoded(fs);
    }
  }

  lemma CallDecoded(fs: seq<Field>, call: ToolCall)
    requires fs != [] && IsText(fs[0], 6) && UnmarshalCall(fs[0].value.bytes) == Some(call)
    requires AllSome(CallsIn(fs[1..]))
    ensures AllSome(CallsIn(fs)) && Decoded(CallsIn(fs)) == Calls(fs[0]) + Decoded(CallsIn(fs[1..]))
  {
    hide UnmarshalCall, Decoded, AllSome;
    FrontDecoded(call, CallsIn(fs[1..]));
    assert CallsIn(fs) == [Some(call)] + CallsIn(fs[1..]);
  }

  lemma OtherDecoded(fs: seq<Field>)
    requires fs != [] && !IsText(fs[0], 6) && AllSome(CallsIn(fs[1..]))
    ensures AllSome(CallsIn(fs)) && Decoded(CallsIn(fs)) == Calls(fs[0]) + Decoded(CallsIn(fs[1..]))
  {
    hide UnmarshalCall, Decoded, AllSome;
    assert CallsIn(fs) == CallsIn(fs[1..]);
    assert Calls(fs[0]) + Decoded(CallsIn(fs[1..])) == Decoded(CallsIn(fs[1..]));
  }

  lemma FrontDecoded(call: ToolCall, rest: seq<Option<ToolCall>>)
    requires AllSome(rest)
    ensures AllSome([Some(call)] + rest) && Decoded([Some(call)] + rest) == [call] + Decoded(rest)
  {
  }

  lemma SaysFirst(m: ChatResponse, next: ChatResponse, fs: seq<Field>)
    requires fs != [] && FieldSays(next, m, fs[0])
    ensures forall r: ChatResponse :: ResponseSays(r, next, fs[1..]) ==> ResponseSays(r, m, fs)
  {
    hide TextOf, NumberOf, UsageIn, ModelIn;
  }

  // ----- Main results -----

  /** A tool call is refused exactly when one of its members is no text; else each is its last field. */
  lemma CallMeans(fs: seq<Field>)
    requires AllValid(fs) && |EncodeAll(fs)| <= MAX_UNMARSHAL_BYTES
    ensures var r := UnmarshalCall(EncodeAll(fs));
            && (r.Some? <==> AllTexts(fs, {1, 2, 3}))
            && (r.Some? ==> r.value == ToolCall(LastText(fs, 1, []), LastText(fs, 2, []), LastText(fs, 3, [])))
  {
    DecodeFields(NO_CALL, fs, ApplyCall);
    CallFold(NO_CALL, fs);
    hide Decode, Fold, LastText;
  }

  lemma StatsMean(fs: seq<Field>)
    requires AllValid(fs) && |EncodeAll(fs)| <= MAX_UNMARSHAL_BYTES
    ensures var r := UnmarshalStats(EncodeAll(fs));
            && (r.Some? <==> AllNumbers(fs, {2, 3, 4, 5}) && AllTexts(fs, {7, 9, 10, 11}))
            && (r.Some? ==> Members(r.value) == StatsOf(fs, NO_STATS))
  {
    DecodeFields(NO_STATS, fs, ApplyStats);
    StatsFold(NO_STATS, fs);
    hide Decode, Fold, LastText, LastNumber;
  }

  lemma JwtMeans(fs: seq<Field>)
    requires AllValid(fs)
    ensures UnmarshalJwt(EncodeAll(fs)) == Some(UserJwt(LastText(fs, 1, []), LastText(fs, 2, [])))
  {
    DecodeFields(NO_JWT, fs, ApplyJwt);
    JwtFold(NO_JWT, fs);
    hide Decode, Fold, LastText;
  }

  /**
   A chat response is read from exactly the field lists whose known fields have their wire types and ranges, whose
   nested messages can be read and which carry no more tool calls than the limit; and then every member is that of the
   last field of its number, and the tool calls are all of theirs.
   */
  lemma ResponseMeans(fs: seq<Field>)
    requires AllValid(fs) && |EncodeAll(fs)| <= MAX_UNMARSHAL_BYTES
    ensures var r := UnmarshalResponse(EncodeAll(fs));
            && (r.Some? <==> AllTaken(fs) && |CallsIn(fs)| <= MAX_DELTA_TOOL_CALLS)
            && (r.Some? ==> ResponseSays(r.value, NO_RESPONSE, fs) && CallsSay(r.value, NO_RESPONSE, fs))
  {
    DecodeFields(NO_RESPONSE, fs, ApplyResponse);
    ResponseFold(NO_RESPONSE, fs);
    hide Decode, Fold, ResponseSays, CallsSay, AllTaken;
  }
}
