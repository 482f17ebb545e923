/**
 The signature of the thinking: the translator sends it only while the thinking
 block is the one it counts as open, and the first tool takes that place. So the
 client hears the signature of the answer exactly when the first tool does not
 come between the last thinking and the end of the reasoning.
 */
module AnthropicSignature {
  import opened Basics
  import opened CanonicalEvents
  import opened StreamProtocol
  import opened AnthropicSteps
  import opened AnthropicDelivery
  import opened AnthropicBrackets
  import MapperSteps
  import MapperConformance

  /** The first tool was announced after the last thinking. */
  predicate ToolSinceThinking(bodies: seq<Body>) {
    bodies != [] &&
    var most, last := bodies[..|bodies| - 1], bodies[|bodies| - 1];
    !last.ReasoningDelta? && (ToolSinceThinking(most) || (AddsTool(last) && FirstTool(most).None?))
  }

  predicate EndsReasoning(b: Body) {
    b.ItemDone? && b.item.Reasoning?
  }

  predicate Signs(b: Body) {
    EndsReasoning(b) && b.item.encrypted != ""
  }

  /** A signature is lost when the first tool of all comes between the last thinking and the item that carries it. */
  predicate SignatureLost(bodies: seq<Body>) {
    exists r :: 0 <= r < |bodies| && Signs(bodies[r]) && ToolSinceThinking(bodies[..r])
  }

  /** The signature of the answer. */
  function SignatureIn(content: seq<Content>): string {
    if content == [] then ""
    else
      var last := content[|content| - 1];
      SignatureIn(content[..|content| - 1]) + if last.ThinkingContent? then last.signature else ""
  }

  lemma LostMore(bodies: seq<Body>)
    requires bodies != []
    ensures var most, last := bodies[..|bodies| - 1], bodies[|bodies| - 1];
            SignatureLost(bodies) <==> SignatureLost(most) || (Signs(last) && ToolSinceThinking(most))
  {
    hide Signs, ToolSinceThinking;
    var most := bodies[..|bodies| - 1];
    if SignatureLost(most) {
      var r :| 0 <= r < |most| && Signs(most[r]) && ToolSinceThinking(most[..r]);
      assert most[..r] == bodies[..r] && most[r] == bodies[r];
    }
    if SignatureLost(bodies) {
      var r :| 0 <= r < |bodies| && Signs(bodies[r]) && ToolSinceThinking(bodies[..r]);
      if r < |most| { assert most[..r] == bodies[..r] && most[r] == bodies[r]; }
    }
  }

  // ----- Only the end of the reasoning is signed -----

  predicate Unsigned(frames: seq<Frame>) {
    forall i :: 0 <= i < |frames| ==> !frames[i].SignaturePiece?
  }

  lemma {:induction false} HearUnsigned(h: Heard, frames: seq<Frame>)
    requires Unsigned(frames) && HearAll(h, frames).Some?
    ensures HearAll(h, frames).value.signature == h.signature
  {
    if frames != [] { HearUnsigned(h, frames[..|frames| - 1]); }
  }

  lemma OpenUnsigned(s: AnthropicState, index: int, names: Names)
    requires index in s.functions.pending
    ensures Unsigned(OpenFunction(s, index, names).frames)
  {
  }

  lemma EndUnsigned(s: AnthropicState)
    ensures Unsigned(EndFunction(s).frames)
  {
  }

  lemma BothUnsigned(xs: seq<Frame>, ys: seq<Frame>)
    requires Unsigned(xs) && Unsigned(ys)
    ensures Unsigned(xs + ys)
  {
  }

  lemma {:induction false} PumpUnsigned(s: AnthropicState, names: Names)
    ensures Unsigned(Pump(s, names).frames)
    decreases |s.functions.pending.Keys|
  {
    hide OpenFunction, EndFunction, Unsigned;
    if s.functions.active || |s.functions.pending.Keys| == 0 {
      BlankUnsigned();
    } else {
      var next := Least(s.functions.pending.Keys);
      var started := OpenFunction(s, next, names);
      OpenUnsigned(s, next, names);
      if next in started.state.functions.pendingDone {
        var ended := EndFunction(ForgetDone(started.state, next));
        EndUnsigned(ForgetDone(started.state, next));
        PendingShrinks(s, next, names);
        PumpUnsigned(ended.state, names);
        BothUnsigned(started.frames, ended.frames);
        BothUnsigned(started.frames + ended.frames, Pump(ended.state, names).frames);
      }
    }
  }

  lemma BlankUnsigned()
    ensures Unsigned([])
  {
  }

  lemma DoneUnsigned(s: AnthropicState, index: int, names: Names)
    ensures Unsigned(FunctionDone(s, index, names).frames)
  {
    hide Pump, EndFunction, Unsigned;
    var s := MarkDone(s, index);
    var flushed := Flush(s, index);
    var ended := EndFunction(ForgetDone(flushed.state, index));
    BlankUnsigned();
    FlushUnsigned(s, index);
    EndUnsigned(ForgetDone(flushed.state, index));
    PumpUnsigned(ended.state, names);
    BothUnsigned(flushed.frames, ended.frames);
    BothUnsigned(flushed.frames + ended.frames, Pump(ended.state, names).frames);
  }

  lemma FlushUnsigned(s: AnthropicState, index: int)
    ensures Unsigned(Flush(s, index).frames)
  {
  }

  lemma SpeechUnsigned(s: AnthropicState, text: string)
    ensures Unsigned(SendText(s, text).frames) && Unsigned(SendThinking(s, text).frames)
  {
  }

  lemma FinishedUnsigned(s: AnthropicState, index: int, item: Item, names: Names)
    requires !item.Reasoning?
    ensures Unsigned(ItemFinished(s, index, item, names).frames)
  {
    hide FunctionDone, Pump, SendText, Unsigned;
    BlankUnsigned();
    match item {
      case Message(_, content) => SpeechUnsigned(s, MessageText(content));
      case FunctionCall(_, _, _, arguments) =>
        var added := if index in s.functions.blocks then s else AddPending(s, index, item);
        var offered := if arguments != "" then OfferArguments(added, index, arguments) else added;
        var done := FunctionDone(offered, index, names);
        DoneUnsigned(offered, index, names);
        PumpUnsigned(done.state, names);
        BothUnsigned(done.frames, Pump(done.state, names).frames);
      case _ =>
    }
  }

  lemma EndingUnsigned(s: AnthropicState, r: Response, names: Names)
    ensures Unsigned(Terminate(s, r, names).frames)
  {
    hide Pump, EndFunction, AnthropicStopReason, UsageFor;
    PumpUnsigned(s, names);
    EndUnsigned(Pump(s, names).state);
  }

  /** Every other event sends no signature. */
  lemma OthersUnsigned(s: AnthropicState, b: Body, model: string, names: Names)
    requires !EndsReasoning(b)
    ensures Unsigned(AnthropicStream(s, b, model, names).frames)
  {
    hide Pump, FunctionDone, ItemFinished, Terminate, SendText, SendThinking, AddPending, OfferArguments,
         FunctionOutputIndex;
    match b {
      case ReasoningDelta(delta) => SpeechUnsigned(s, delta);
      case TextDelta(delta) => SpeechUnsigned(s, delta);
      case RefusalDelta(delta) => SpeechUnsigned(s, delta);
      case ItemAdded(index, item) => if item.FunctionCall? { PumpUnsigned(AddPending(s, index, item), names); }
      case ArgumentsDone(callId, _, index, arguments) =>
        var found := FunctionOutputIndex(s.functions, callId, index);
        if found.Some? { DoneUnsigned(OfferArguments(s, found.value, arguments), found.value, names); }
      case ItemDone(_, index, item) => FinishedUnsigned(s, index, item, names);
      case Completed(_) => EndingUnsigned(s, ResponseOf(b), names);
      case Incomplete(_) => EndingUnsigned(s, ResponseOf(b), names);
      case _ =>
    }
  }

  // ----- Which block counts as open before the reasoning ends -----

  /** Tools are only closed once the reasoning is over. */
  predicate ClosedSettled(l: Log) {
    l.argsClosed > 0 ==> ReasoningSettled(l)
  }

  lemma AdvanceSettled(l: Log, b: Body)
    requires ClosedSettled(l) && Advance(l, b).Some?
    ensures ClosedSettled(Advance(l, b).value)
  {
    hide ToolPositions, Rendered, HasTool;
  }

  lemma {:induction false} FeedSettled(bodies: seq<Body>)
    requires Feed(EMPTY_LOG, bodies).Some?
    ensures ClosedSettled(Feed(EMPTY_LOG, bodies).value)
  {
    hide Advance, ClosedSettled;
    if bodies == [] {
      EmptySettled();
    } else {
      FeedSettled(bodies[..|bodies| - 1]);
      AdvanceSettled(Feed(EMPTY_LOG, bodies[..|bodies| - 1]).value, bodies[|bodies| - 1]);
    }
  }

  lemma EmptySettled()
    ensures ClosedSettled(EMPTY_LOG)
  {
  }

  /** Thinking has been heard and its item has not come yet. */
  predicate Thinking(l: Log) {
    l.thinking != "" && l.reasoning.None?
  }

  lemma FirstToolTakes(x: Session, p: nat, d: Draft, names: Names)
    requires Serves(x, [], [], 0, 0, names) && !x.state.functions.active && d.ToolDraft? && d.id != ""
    requires d.arguments == ""
    ensures Pump(AddPending(x.state, p, FunctionCall(d.id, d.id, d.name, "")), names).state.cursor.kind == ToolType
  {
    hide Pump, Serves, OpenFunction;
    AddServes(x, [], [], 0, 0, p, d, names);
    assert [] + [p] == [p] && [] + [d] == [d];
    var y := x.(state := AddPending(x.state, p, FunctionCall(d.id, d.id, d.name, "")));
    assert !y.state.functions.active;
    ServesTools(y, [p], [d], 0, 0, names);
    PumpOpens(y, [p], [d], 0, 0, names);
    OpenSays(y.state, p, names);
  }

  /** What the events that may come while thinking goes on do to the open block. */
  predicate CursorFollows(before: BlockType, after: BlockType, b: Body, first: bool) {
    if b.ReasoningDelta? then after == ThinkingType
    else if AddsTool(b) && first then after == ToolType
    else after == before
  }

  lemma AddFollows(x: Session, l: Log, b: Body, model: string, names: Names)
    requires InStep(x, l, names) && AddsTool(b) && Advance(l, b).Some?
    ensures CursorFollows(x.state.cursor.kind, AnthropicStream(x.state, b, model, names).state.cursor.kind, b,
                          ToolCount(l) == 0)
  {
    hide ToolPositions, ToolDrafts, Serves, Pump, AddPending, AnthropicStream, GrowTools;
    AddIsPump(x.state, l, b.outputIndex, b.item, model, names);
    var d := ToolDraft(b.item.id, b.item.name, "");
    if ToolCount(l) == 0 {
      assert ToolPositions(l.items) == [] && ToolDrafts(l.items) == [];
      FirstToolTakes(x, b.outputIndex, d, names);
    } else {
      ActiveIdles(x.state, b.outputIndex, FunctionCall(d.id, d.id, d.name, ""), names);
    }
  }

  lemma ActiveIdles(s: AnthropicState, index: int, item: CallItem, names: Names)
    requires s.functions.active
    ensures Pump(AddPending(s, index, item), names).state.cursor == s.cursor
  {
  }

  lemma CursorMoves(x: Session, l: Log, b: Body, model: string, names: Names)
    requires InStep(x, l, names) && MarkersConsistent(l) && ClosedSettled(l) && Advance(l, b).Some?
    requires Thinking(Advance(l, b).value)
    requires l.thinking == "" ==> b.ReasoningDelta?
    ensures CursorFollows(x.state.cursor.kind, AnthropicStream(x.state, b, model, names).state.cursor.kind, b,
                          ToolCount(l) == 0)
  {
    hide ToolPositions, ToolDrafts, InStep, Pump, FunctionDone, GrowTools, AddPending, OfferArguments, Rendered,
         HasTool;
    if AddsTool(b) {
      AddFollows(x, l, b, model, names);
    }
  }

  // ----- The invariant -----

  /** What has become of the signature so far. */
  predicate Signed(x: Session, l: Log, lost: bool, since: bool) {
    && (Thinking(l) ==> (x.state.cursor.kind == ThinkingType <==> !since))
    && (l.reasoning.None? ==> x.heard.signature == "" && !lost)
    && (l.reasoning.Some? ==> l.reasoning.value.Reasoning?)
    && (l.reasoning.Some? ==> x.heard.signature == if lost then "" else l.reasoning.value.encrypted)
    && (l.reasoning.Some? && lost ==> l.reasoning.value.encrypted != "")
  }

  /** The markers after one more event. */
  predicate Marks(b: Body, first: bool, lost: bool, since: bool, lostNow: bool, sinceNow: bool) {
    && (lostNow <==> lost || (Signs(b) && since))
    && (sinceNow <==> !b.ReasoningDelta? && (since || (AddsTool(b) && first)))
  }

  /** The reasoning of the log changes only at its end. */
  lemma ReasoningMoves(l: Log, b: Body)
    requires Advance(l, b).Some? && MarkersConsistent(l)
    ensures var n := Advance(l, b).value;
            if EndsReasoning(b) then l.reasoning.None? && Thinking(l) && n.reasoning == Some(b.item)
            else
              n.reasoning == l.reasoning && (n.thinking != l.thinking ==> b.ReasoningDelta?)
              && (b.ReasoningDelta? ==> l.reasoning.None?)
  {
    hide ToolPositions, Rendered, HasTool, ClosesArguments;
  }

  lemma EndSigned(x: Session, l: Log, b: Body, lost: bool, since: bool, model: string, names: Names)
    requires Signed(x, l, lost, since) && EndsReasoning(b) && l.reasoning.None? && Thinking(l)
    ensures var y := Exchange(x, AnthropicStream(x.state, b, model, names));
            y.Some? && y.value.heard.signature == if since then "" else b.item.encrypted
  {
    hide Pump, FunctionDone;
    HearNone(x.heard);
    HearOne(x.heard, SignaturePiece(x.state.cursor.index, b.item.encrypted));
    hide HearAll;
  }

  lemma StepSigned(x: Session, l: Log, b: Body, lost: bool, since: bool, lostNow: bool, sinceNow: bool, model: string,
        names: Names)
    requires InStep(x, l, names) && MarkersConsistent(l) && ClosedSettled(l) && Advance(l, b).Some?
    requires Exchange(x, AnthropicStream(x.state, b, model, names)).Some?
    requires Signed(x, l, lost, since) && Marks(b, ToolCount(l) == 0, lost, since, lostNow, sinceNow)
    ensures Signed(Exchange(x, AnthropicStream(x.state, b, model, names)).value, Advance(l, b).value, lostNow, sinceNow)
  {
    hide Advance, AnthropicStream, HearAll, InStep, MarkersConsistent, ClosedSettled, ToolPositions;
    ReasoningMoves(l, b);
    if EndsReasoning(b) {
      EndSigned(x, l, b, lost, since, model, names);
    } else {
      OthersUnsigned(x.state, b, model, names);
      HearUnsigned(x.heard, AnthropicStream(x.state, b, model, names).frames);
      if Thinking(Advance(l, b).value) {
        CursorMoves(x, l, b, model, names);
      }
    }
  }

  lemma {:induction false} PrefixSigned(model: string, bodies: seq<Body>, names: Names)
    requires Feed(EMPTY_LOG, bodies).Some?
    ensures var x := Converse(model, bodies, names);
            x.Some? && Signed(x.value, Feed(EMPTY_LOG, bodies).value, SignatureLost(bodies), ToolSinceThinking(bodies))
  {
    hide Advance, AnthropicStream, Exchange, InStep, Signed, Consistent, MarkersConsistent, ClosedSettled, Remembers,
         FirstTool;
    if bodies == [] {
      StartSigned();
    } else {
      var most, last := bodies[..|bodies| - 1], bodies[|bodies| - 1];
      PrefixSigned(model, most, names);
      PrefixInStep(model, most, names);
      PrefixInStep(model, bodies, names);
      FeedConsistent(most);
      FeedSettled(most);
      FeedRemembers(most);
      LostMore(bodies);
      var x, l := Converse(model, most, names).value, Feed(EMPTY_LOG, most).value;
      FirstRemembered(l, most);
      MarkersOf(l);
      StepSigned(x, l, last, SignatureLost(most), ToolSinceThinking(most), SignatureLost(bodies),
                 ToolSinceThinking(bodies), model, names);
    }
  }

  lemma StartSigned()
    ensures Signed(Session(INITIAL, NOTHING), EMPTY_LOG, SignatureLost([]), ToolSinceThinking([]))
  {
  }

  lemma FirstRemembered(l: Log, bodies: seq<Body>)
    requires Remembers(l, bodies)
    ensures FirstTool(bodies).None? <==> ToolCount(l) == 0
  {
  }

  lemma MarkersOf(l: Log)
    requires Consistent(l)
    ensures MarkersConsistent(l)
  {
  }

  // ----- The signature of the answer -----

  lemma SignatureMore(content: seq<Content>, c: Content)
    ensures SignatureIn(content + [c]) == SignatureIn(content) + if c.ThinkingContent? then c.signature else ""
  {
    assert (content + [c])[..|content|] == content;
  }

  lemma {:induction false} SignaturesSay(l: Log, n: nat, names: Names)
    requires MarkersConsistent(l) && ReasoningSettled(l) && n <= |l.items|
    ensures SignatureIn(Contents(Rendered(l)[..n], names))
         == if l.thinkingAt.Some? && l.thinkingAt.value < n && l.reasoning.value.Reasoning?
            then l.reasoning.value.encrypted else ""
  {
    hide MarkersConsistent, SignatureIn, Contents, Rendered;
    if n == 0 {
      NoContents(l, names);
      assert SignatureIn([]) == "" by { NoSignature(); }
    } else {
      SignaturesSay(l, n - 1, names);
      MarkersAt(l, n - 1);
      var c := ContentsNext(l, n - 1, names);
      SignatureMore(Contents(Rendered(l)[..n - 1], names), c);
    }
  }

  lemma NoSignature()
    ensures SignatureIn([]) == ""
  {
  }

  lemma AnswerSigned(model: string, bodies: seq<Body>, l: Log, names: Names)
    requires MarkersConsistent(l) && ReasoningSettled(l) && TerminalResponse(bodies) == l.final && l.final.Some?
    requires l.final.value.output == Rendered(l)
    ensures var a := AnthropicResponse(model, bodies, names);
            a.Some? && SignatureIn(a.value.content) == if l.reasoning.Some? then l.reasoning.value.encrypted else ""
  {
    assert Rendered(l)[..|l.items|] == Rendered(l);
    hide TerminalResponse, Contents, SignatureIn, AnthropicStopReason, UsageFor, Rendered, HasCall;
    SignaturesSay(l, |l.items|, names);
  }

  // ----- Main results -----

  /** What the client hears of a signature is the answer's, or nothing. */
  ghost predicate SignatureHeard(h: Heard, a: Answer, lost: bool) {
    && (h.signature == SignatureIn(a.content) <==> !lost)
    && (lost ==> h.signature == "")
  }

  lemma SignatureHeardExactly(model: string, bodies: seq<Body>, names: Names)
    requires Conforms(bodies)
    ensures var x := Converse(model, bodies, names);
            var a := AnthropicResponse(model, bodies, names);
            x.Some? && a.Some? && SignatureHeard(x.value.heard, a.value, SignatureLost(bodies))
  {
    hide Converse, AnthropicResponse, SignatureIn, SignatureLost, ToolSinceThinking, Feed, InStep, MarkersConsistent,
         ToolsDistinct, ClosingConsistent;
    PrefixSigned(model, bodies, names);
    FinishedSession(model, bodies, names);
    AnswerSigned(model, bodies, Feed(EMPTY_LOG, bodies).value, names);
  }

  lemma DevinSignatureHeardExactly(
      selected: string, id: string, limit: int, frames: seq<MapperSteps.Frame>, valid: MapperSteps.JsonTest,
      model: string, names: Names)
    requires MapperConformance.Run(MapperSteps.Initial(selected, id, limit), frames, valid).ok
    ensures var bodies := Bodies(MapperConformance.Run(MapperSteps.Initial(selected, id, limit), frames, valid).events);
            var x := Converse(model, bodies, names);
            var a := AnthropicResponse(model, bodies, names);
            x.Some? && a.Some? && SignatureHeard(x.value.heard, a.value, SignatureLost(bodies))
  {
    hide MapperConformance.Run, SignatureHeard, Converse, AnthropicResponse, SignatureLost;
    MapperConformance.RunConforms(selected, id, limit, frames, valid);
    var o := MapperConformance.Run(MapperSteps.Initial(selected, id, limit), frames, valid);
    SignatureHeardExactly(model, Bodies(o.events), names);
  }

  // ----- A run that loses its signature -----

  const SIGNED_CALL := MapperSteps.Frame("", "", "a", "s", None, MapperSteps.StopUnspecified,
                                         [MapperSteps.Call("t", "f", "{}")], None)

  /** One frame that thinks, signs and calls a tool: the reasoning is still open behind it. */
  lemma SignedCallEvents()
    ensures var o := MapperSteps.Push(MapperSteps.Initial("m", "r", 2), SIGNED_CALL);
            && o.ok && |o.events| == 4 && o.events[1].body.ReasoningDelta? && AddsTool(o.events[2].body)
            && !AddsTool(o.events[0].body) && o.events[3].body.ArgumentsDelta?
            && !o.state.terminal && o.state.head.stop.StopUnspecified? && o.state.head.created
            && o.state.thought.open && !o.state.thought.done && o.state.thought.signature == "s"
            && o.state.table.order == ["t"] && "t" in o.state.table.byId && o.state.table.byId["t"].arguments == "{}"
  {
    var s := MapperSteps.Initial("m", "r", 2);
    var start := MapperSteps.Begin(s, SIGNED_CALL);
    var deltas := MapperSteps.PushDeltas(start.state, SIGNED_CALL);
    assert start.events == [MapperSteps.Numbered(0, Created("r", "m"))];
    assert deltas.events == [MapperSteps.Numbered(1, ReasoningDelta("a"))];
    var call := MapperSteps.Call("t", "f", "{}");
    var added := MapperSteps.AddTool(deltas.state, "t", "f");
    var filled := MapperSteps.AddArguments(added.state, "t", "{}");
    assert filled.ok && |filled.events| == 1;
    assert MapperSteps.PushTool(deltas.state, call) == MapperSteps.After(added.events, filled);
    assert [call][..0] == [];
    assert MapperSteps.PushTools(deltas.state, [call][..0]) == MapperSteps.Done(deltas.state, []);
    assert MapperSteps.PushTools(deltas.state, [call])
        == MapperSteps.After([], MapperSteps.PushTool(deltas.state, call));
  }

  lemma PreparedSigns(s: MapperSteps.State)
    requires s.head.created && s.thought.open && !s.thought.done && s.thought.signature != ""
    ensures var o := MapperSteps.PrepareFinal(s);
            |o.events| >= 1 && Signs(o.events[0].body)
  {
  }

  lemma SignedCallRuns(valid: MapperSteps.JsonTest)
    requires valid("{}")
    ensures var o := MapperConformance.Run(MapperSteps.Initial("m", "r", 2), [SIGNED_CALL], valid);
            var pushed := MapperSteps.Push(MapperSteps.Initial("m", "r", 2), SIGNED_CALL);
            && o.ok && |o.events| >= 5 && Signs(o.events[4].body)
            && forall i :: 0 <= i < 4 ==> o.events[i].body == pushed.events[i].body
  {
    hide MapperSteps.Push, MapperSteps.PrepareFinal, MapperSteps.FinalResponse, Signs;
    var s := MapperSteps.Initial("m", "r", 2);
    SignedCallEvents();
    var pushed := MapperSteps.Push(s, SIGNED_CALL);
    assert [SIGNED_CALL][..0] == [];
    assert MapperConformance.PushAll(s, [SIGNED_CALL][..0]) == MapperSteps.Done(s, []);
    assert MapperConformance.PushAll(s, [SIGNED_CALL]) == MapperSteps.After([], pushed);
    assert [] + pushed.events == pushed.events;
    PreparedSigns(pushed.state);
    MapperConformance.PrepareKeepsTable(pushed.state);
    var prepared := MapperSteps.PrepareFinal(pushed.state);
    assert MapperSteps.CloseTools(prepared.state, 0, valid).ok;
    assert MapperSteps.CloseTools(prepared.state, 1, valid).ok;
  }

  lemma FourBodies(bodies: seq<Body>)
    requires |bodies| >= 4 && !AddsTool(bodies[0]) && bodies[1].ReasoningDelta? && AddsTool(bodies[2])
    requires bodies[3].ArgumentsDelta?
    ensures ToolSinceThinking(bodies[..4])
  {
    assert bodies[..4][..3] == bodies[..3] && bodies[..3][..2] == bodies[..2];
    NoFirstTool(bodies[..2]);
    assert ToolSinceThinking(bodies[..3]);
  }

  /**
   A tool called in the thinking's own frame takes the signature away: the answer has it, the client never hears it.
   */
  lemma ToolTakesSignature(valid: MapperSteps.JsonTest, model: string, names: Names)
    requires valid("{}")
    ensures var o := MapperConformance.Run(MapperSteps.Initial("m", "r", 2), [SIGNED_CALL], valid);
            var x, a := Converse(model, Bodies(o.events), names), AnthropicResponse(model, Bodies(o.events), names);
            o.ok && x.Some? && a.Some? && x.value.heard.signature == "" != SignatureIn(a.value.content)
  {
    hide MapperConformance.Run, Converse, AnthropicResponse, MapperSteps.Push, SignatureIn, ToolSinceThinking, Signs,
         AddsTool;
    SignedCallEvents();
    SignedCallRuns(valid);
    DevinSignatureHeardExactly("m", "r", 2, [SIGNED_CALL], valid, model, names);
    var bodies := Bodies(MapperConformance.Run(MapperSteps.Initial("m", "r", 2), [SIGNED_CALL], valid).events);
    FourBodies(bodies);
    assert Signs(bodies[4]) && SignatureLost(bodies);
  }
}
