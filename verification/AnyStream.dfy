/**
 What the translators make of any event stream at all, of whatever provider and
 in whatever order: what is said while streaming, and the collected answer.
 */
module SpeechOfEvents {
  import opened CanonicalEvents

  /** The text of a list of texts. */
  function AllOf(texts: seq<string>): string {
    if texts == [] then "" else texts[0] + AllOf(texts[1..])
  }

  /** The parts of a message that are answers, one after the other. */
  function OutputTexts(parts: seq<Part>): string {
    if parts == [] then "" else (if parts[0].kind == OutputText then parts[0].text else "") + OutputTexts(parts[1..])
  }

  lemma {:induction false} AllOfMore(texts: seq<string>, text: string)
    ensures AllOf(texts + [text]) == AllOf(texts) + text
  {
    if texts == [] {
      assert [text][1..] == [];
    } else {
      AllOfMore(texts[1..], text);
      assert (texts + [text])[1..] == texts[1..] + [text];
    }
  }

  lemma {:induction false} JoinedIsAll(texts: seq<string>)
    ensures Joined(texts) == AllOf(texts)
  {
    if texts != [] {
      JoinedIsAll(texts[..|texts| - 1]);
      AllOfMore(texts[..|texts| - 1], texts[|texts| - 1]);
      assert texts[..|texts| - 1] + [texts[|texts| - 1]] == texts;
    }
  }

  lemma {:induction false} OutputTextsMore(parts: seq<Part>, part: Part)
    ensures OutputTexts(parts + [part]) == OutputTexts(parts) + if part.kind == OutputText then part.text else ""
  {
    if parts == [] {
      assert parts + [part] == [part] && [part][1..] == [];
    } else {
      var rest, head := parts[1..], if parts[0].kind == OutputText then parts[0].text else "";
      OutputTextsMore(rest, part);
      assert (parts + [part])[1..] == rest + [part];
      hide OutputTexts;
      Regrouped(head, OutputTexts(rest), if part.kind == OutputText then part.text else "");
    }
  }

  lemma Regrouped<T>(a: seq<T>, b: seq<T>, c: seq<T>)
    ensures a + (b + c) == (a + b) + c
  {
  }
}

/** The Chat translator. */
module ChatOfAnyStream {
  import opened Basics
  import opened CanonicalEvents
  import opened SpeechOfEvents
  import opened MapperResults
  import opened ChatSteps
  import opened AnsweredTools
  import opened ChatMeaning

  lemma {:induction false} PartsAreOutputTexts(parts: seq<Part>)
    ensures PartsText(parts) == OutputTexts(parts)
  {
    if parts != [] {
      PartsAreOutputTexts(parts[..|parts| - 1]);
      OutputTextsMore(parts[..|parts| - 1], parts[|parts| - 1]);
      assert parts[..|parts| - 1] + [parts[|parts| - 1]] == parts;
    }
  }

  // ----- While streaming -----

  /** The event says something: a piece of text, or a finished message with text. */
  predicate SaysText(b: Body) {
    b.TextDelta? || (b.ItemDone? && b.item.Message? && OutputTexts(b.item.content) != "")
  }

  predicate HasSaid(bodies: seq<Body>) {
    exists i :: 0 <= i < |bodies| && SaysText(bodies[i])
  }

  /** The pieces of text; and a finished message when nothing has been said before it. */
  function Said(bodies: seq<Body>): string {
    if bodies == [] then ""
    else
      var most, last := bodies[..|bodies| - 1], bodies[|bodies| - 1];
      Said(most) +
      if last.TextDelta? then last.delta
      else if last.ItemDone? && last.item.Message? && !HasSaid(most) then OutputTexts(last.item.content)
      else ""
  }

  lemma HasSaidMore(bodies: seq<Body>)
    requires bodies != []
    ensures HasSaid(bodies) <==> HasSaid(bodies[..|bodies| - 1]) || SaysText(bodies[|bodies| - 1])
  {
    hide SaysText;
    var most := bodies[..|bodies| - 1];
    if HasSaid(most) {
      var i :| 0 <= i < |most| && SaysText(most[i]);
      assert SaysText(bodies[i]);
    }
    if HasSaid(bodies) {
      var i :| 0 <= i < |bodies| && SaysText(bodies[i]);
      if i < |most| { assert SaysText(most[i]); }
    }
  }

  /** What one event brings. */
  lemma EventSays(s: ChatState, b: Body, names: Names)
    ensures var e := ChatStream(s, b, names);
            var content := if e.chunk.Some? then e.chunk.value.delta.content else None;
            var reasoning := if e.chunk.Some? then e.chunk.value.delta.reasoning else None;
            && (e.state.textSeen <==> s.textSeen || SaysText(b))
            && (if content.Some? then content.value else "")
               == (if b.TextDelta? then b.delta
                   else if b.ItemDone? && b.item.Message? && !s.textSeen then OutputTexts(b.item.content) else "")
            && (if reasoning.Some? then reasoning.value else "") == (if b.ReasoningDelta? then b.delta else "")
  {
    hide PartsText, OutputTexts, ChatStopReason, ChatUsageOf, ChatFunctionIndex, ClientName;
    if b.ItemDone? && b.item.Message? { PartsAreOutputTexts(b.item.content); }
  }

  /**
   Of every event stream whose chunks a client can fold, the client has exactly the text and the reasoning: the pieces,
   and a finished message only if nothing had been said.
   */
  lemma {:induction false} AnyStreamIsHeard(model: string, bodies: seq<Body>, names: Names)
    requires Converse(model, bodies, names).Some?
    ensures var x := Converse(model, bodies, names).value;
            && x.client.content == Said(bodies) && x.client.reasoning == ReasoningDeltas(bodies)
            && (x.state.textSeen <==> HasSaid(bodies))
  {
    hide ChatStream, ReceiveTools, SaysText, OutputTexts;
    if bodies != [] {
      var most, last := bodies[..|bodies| - 1], bodies[|bodies| - 1];
      AnyStreamIsHeard(model, most, names);
      EventSays(Converse(model, most, names).value.state, last, names);
      HasSaidMore(bodies);
    }
  }

  // ----- The collected answer -----

  function MessagesText(output: seq<Item>): string {
    if output == [] then ""
    else (if output[0].Message? then OutputTexts(output[0].content) else "") + MessagesText(output[1..])
  }

  function SummariesText(output: seq<Item>): string {
    if output == [] then ""
    else (if output[0].Reasoning? then AllOf(output[0].summary) else "") + SummariesText(output[1..])
  }

  lemma {:induction false} MessagesMore(output: seq<Item>, item: Item)
    ensures MessagesText(output + [item])
         == MessagesText(output) + if item.Message? then OutputTexts(item.content) else ""
  {
    hide OutputTexts;
    if output == [] {
      assert output + [item] == [item] && [item][1..] == [] && MessagesText([item][1..]) == "";
    } else {
      var rest, head := output[1..], if output[0].Message? then OutputTexts(output[0].content) else "";
      MessagesMore(rest, item);
      assert (output + [item])[1..] == rest + [item];
      hide MessagesText;
      Regrouped(head, MessagesText(rest), if item.Message? then OutputTexts(item.content) else "");
    }
  }

  lemma {:induction false} SummariesMore(output: seq<Item>, item: Item)
    ensures SummariesText(output + [item])
         == SummariesText(output) + if item.Reasoning? then AllOf(item.summary) else ""
  {
    hide AllOf;
    if output == [] {
      assert output + [item] == [item] && [item][1..] == [] && SummariesText([item][1..]) == "";
    } else {
      var rest, head := output[1..], if output[0].Reasoning? then AllOf(output[0].summary) else "";
      SummariesMore(rest, item);
      assert (output + [item])[1..] == rest + [item];
      hide SummariesText;
      Regrouped(head, SummariesText(rest), if item.Reasoning? then AllOf(item.summary) else "");
    }
  }

  lemma {:induction false} OutputSays(output: seq<Item>)
    ensures TextOf(output) == MessagesText(output) && ReasoningOf(output) == SummariesText(output)
  {
    hide OutputTexts, AllOf, PartsText, Joined;
    if output != [] {
      var most, last := output[..|output| - 1], output[|output| - 1];
      OutputSays(most);
      MessagesMore(most, last);
      SummariesMore(most, last);
      assert most + [last] == output;
      if last.Message? { PartsAreOutputTexts(last.content); }
      if last.Reasoning? { JoinedIsAll(last.summary); }
    }
  }

  /** The last event that carries a response, at a position. */
  predicate LastResponseAt(bodies: seq<Body>, k: nat) {
    k < |bodies| && CarriesResponse(bodies[k]) && forall i :: k < i < |bodies| ==> !CarriesResponse(bodies[i])
  }

  lemma {:induction false} LastIsTerminal(bodies: seq<Body>, k: nat)
    requires LastResponseAt(bodies, k)
    ensures TerminalResponse(bodies) == bodies[k].response
    decreases |bodies|
  {
    hide CarriesResponse;
    var most := bodies[..|bodies| - 1];
    if k < |most| {
      assert LastResponseAt(most, k) && !CarriesResponse(bodies[|most|]);
      LastIsTerminal(most, k);
    }
  }

  lemma {:induction false} TerminalIsSome(bodies: seq<Body>)
    ensures TerminalResponse(bodies).Some? <==> exists i :: 0 <= i < |bodies| && CarriesResponse(bodies[i])
  {
    if bodies != [] {
      var most := bodies[..|bodies| - 1];
      TerminalIsSome(most);
      if i :| 0 <= i < |bodies| && CarriesResponse(bodies[i]) && i < |most| {
        assert CarriesResponse(most[i]);
      }
      if i :| 0 <= i < |most| && CarriesResponse(most[i]) {
        assert CarriesResponse(bodies[i]);
      }
      assert bodies[|most|] == bodies[|bodies| - 1];
    }
  }

  /** What an answer has of a response. */
  ghost predicate AnswersWith(a: Completion, r: Response, model: string, names: Names) {
    && a.id == r.id && a.model == (if r.model != "" then r.model else model)
    && a.content == MessagesText(r.output) && a.reasoning == SummariesText(r.output)
    && CallsAre(a.calls, ToolItems(r.output), names)
    && EndsAs(a.finish, a.calls != [], r) && Counts(a.usage, r.usage)
  }

  /** Any stream is answered exactly when some event carries a response, and then with what the last such event says. */
  lemma CollectsExactly(model: string, bodies: seq<Body>, names: Names)
    ensures var a := ChatResponse(model, bodies, names);
            && (a.Some? <==> exists i :: 0 <= i < |bodies| && CarriesResponse(bodies[i]))
            && forall k: nat :: LastResponseAt(bodies, k) ==>
                 a.Some? && AnswersWith(a.value, bodies[k].response.value, model, names)
  {
    TerminalIsSome(bodies);
    hide TextOf, ReasoningOf, CallsOf, MessagesText, SummariesText, ChatStopReason, ChatUsageOf, CallsAre, EndsAs,
         Counts, TerminalResponse, ToolItems;
    forall k: nat | LastResponseAt(bodies, k)
      ensures TerminalResponse(bodies) == bodies[k].response
    {
      LastIsTerminal(bodies, k);
    }
    var found := TerminalResponse(bodies);
    if found.Some? {
      var r := found.value;
      OutputSays(r.output);
      CallsOfAre(r.output, names);
      var calls := CallsOf(r.output, names);
      EndsSay(r, calls != []);
      assert (|calls| > 0) == (calls != []);
      assert AnswersWith(ChatResponse(model, bodies, names).value, r, model, names);
    }
  }
}

/** The Anthropic translator. */
module AnthropicOfAnyStream {
  import opened Basics
  import opened CanonicalEvents
  import opened SpeechOfEvents
  import opened MapperResults
  import opened AnthropicSteps
  import opened AnsweredTools
  import opened AnthropicMeaning
  import opened AnthropicBrackets
  import opened AnthropicDelivery
  import ChatOfAnyStream

  // ----- While streaming -----

  function PieceTexts(frames: seq<Frame>): string {
    if frames == [] then ""
    else PieceTexts(frames[..|frames| - 1]) + if frames[|frames| - 1].TextPiece? then frames[|frames| - 1].text else ""
  }

  function PieceThinkings(frames: seq<Frame>): string {
    if frames == [] then ""
    else
      var last := frames[|frames| - 1];
      PieceThinkings(frames[..|frames| - 1]) + if last.ThinkingPiece? then last.text else ""
  }

  predicate Silent(frames: seq<Frame>) {
    forall i :: 0 <= i < |frames| ==> !frames[i].TextPiece? && !frames[i].ThinkingPiece?
  }

  lemma {:induction false} PiecesAppend(xs: seq<Frame>, ys: seq<Frame>)
    ensures PieceTexts(xs + ys) == PieceTexts(xs) + PieceTexts(ys)
    ensures PieceThinkings(xs + ys) == PieceThinkings(xs) + PieceThinkings(ys)
  {
    if ys == [] {
      assert xs + ys == xs;
    } else {
      PiecesAppend(xs, ys[..|ys| - 1]);
      assert (xs + ys)[..|xs + ys| - 1] == xs + ys[..|ys| - 1];
    }
  }

  lemma {:induction false} SilentSaysNothing(frames: seq<Frame>)
    requires Silent(frames)
    ensures PieceTexts(frames) == "" == PieceThinkings(frames)
  {
    if frames != [] { SilentSaysNothing(frames[..|frames| - 1]); }
  }

  /** Silent steps do not count as text. */
  predicate Quiet(s: AnthropicState, sent: Sent) {
    Silent(sent.frames) && sent.state.textSeen == s.textSeen
  }

  lemma OpenQuiet(s: AnthropicState, index: int, names: Names)
    requires index in s.functions.pending
    ensures Quiet(s, OpenFunction(s, index, names))
  {
  }

  lemma EndQuiet(s: AnthropicState)
    ensures Quiet(s, EndFunction(s)) && Quiet(s, CloseBlock(s))
  {
  }

  lemma {:induction false} PumpQuiet(s: AnthropicState, names: Names)
    ensures Quiet(s, Pump(s, names))
    decreases |s.functions.pending.Keys|
  {
    hide OpenFunction, EndFunction;
    if !s.functions.active && |s.functions.pending.Keys| > 0 {
      var next := Least(s.functions.pending.Keys);
      var started := OpenFunction(s, next, names);
      OpenQuiet(s, next, names);
      if next in started.state.functions.pendingDone {
        var ended := EndFunction(ForgetDone(started.state, next));
        EndQuiet(ForgetDone(started.state, next));
        PendingShrinks(s, next, names);
        PumpQuiet(ended.state, names);
      }
    }
  }

  lemma DoneQuiet(s: AnthropicState, index: int, names: Names)
    ensures Quiet(s, FunctionDone(s, index, names))
  {
    hide EndFunction, Pump;
    var t := MarkDone(s, index);
    if t.functions.active && t.functions.activeOutput == index {
      var flushed := Flush(t, index);
      EndQuiet(ForgetDone(flushed.state, index));
      PumpQuiet(EndFunction(ForgetDone(flushed.state, index)).state, names);
    }
  }

  lemma TerminateQuiet(s: AnthropicState, r: Response, names: Names)
    ensures Quiet(s, Terminate(s, r, names))
  {
    hide Pump, EndFunction, CloseBlock, AnthropicStopReason;
    PumpQuiet(s, names);
    EndQuiet(Pump(s, names).state);
    var ended := if Pump(s, names).state.functions.active then EndFunction(Pump(s, names).state)
                 else Sent(Pump(s, names).state, []);
    EndQuiet(ended.state);
  }

  lemma CallItemQuiet(s: AnthropicState, index: int, item: Item, names: Names)
    requires item.FunctionCall?
    ensures Quiet(s, ItemFinished(s, index, item, names))
  {
    hide Pump, FunctionDone;
    var t := if index in s.functions.blocks then s else AddPending(s, index, item);
    var u := if item.arguments != "" then OfferArguments(t, index, item.arguments) else t;
    DoneQuiet(u, index, names);
    PumpQuiet(FunctionDone(u, index, names).state, names);
  }

  /** What a finished message says: its first part with a text or a refusal, and the texts of the parts behind it. */
  function MessageSays(parts: seq<Part>): string {
    if parts == [] then ""
    else if parts[0].kind == OtherPart || (parts[0].text == "" && parts[0].refusal == "") then MessageSays(parts[1..])
    else (if parts[0].text != "" then parts[0].text else parts[0].refusal) + PartTexts(parts[1..])
  }

  function PartTexts(parts: seq<Part>): string {
    if parts == [] then "" else (if parts[0].kind == OtherPart then "" else parts[0].text) + PartTexts(parts[1..])
  }

  lemma {:induction false} PartTextsMore(parts: seq<Part>, p: Part)
    ensures PartTexts(parts + [p]) == PartTexts(parts) + if p.kind == OtherPart then "" else p.text
  {
    if parts == [] {
      assert parts + [p] == [p] && [p][1..] == [];
    } else {
      var rest, head := parts[1..], if parts[0].kind == OtherPart then "" else parts[0].text;
      PartTextsMore(rest, p);
      assert (parts + [p])[1..] == rest + [p];
      hide PartTexts;
      Regrouped(head, PartTexts(rest), if p.kind == OtherPart then "" else p.text);
    }
  }

  lemma {:induction false} MessageSaysMore(parts: seq<Part>, p: Part)
    ensures MessageSays(parts + [p])
         == if p.kind == OtherPart then MessageSays(parts)
            else if MessageSays(parts) == "" && p.text == "" then p.refusal
            else MessageSays(parts) + p.text
  {
    hide PartTexts;
    if parts == [] {
      assert [p][1..] == [] && PartTexts([p][1..]) == "" by { NoPartTexts(); }
    } else {
      var rest := parts[1..];
      assert (parts + [p])[1..] == rest + [p];
      if parts[0].kind == OtherPart || (parts[0].text == "" && parts[0].refusal == "") {
        MessageSaysMore(rest, p);
      } else {
        PartTextsMore(rest, p);
        var first := if parts[0].text != "" then parts[0].text else parts[0].refusal;
        assert MessageSays(parts) == first + PartTexts(rest) && first != "";
        assert MessageSays(parts + [p]) == first + PartTexts(rest + [p]);
      }
    }
  }

  lemma NoPartTexts()
    ensures PartTexts([]) == ""
  {
  }

  lemma {:induction false} MessageTextSays(parts: seq<Part>)
    ensures MessageText(parts) == MessageSays(parts)
  {
    hide MessageSays;
    if parts == [] {
      assert MessageSays(parts) == "" by { NothingSaid(); }
    } else {
      var most, last := parts[..|parts| - 1], parts[|parts| - 1];
      MessageTextSays(most);
      MessageSaysMore(most, last);
      assert most + [last] == parts;
    }
  }

  lemma NothingSaid()
    ensures MessageSays([]) == ""
  {
  }

  predicate SaysText(b: Body) {
    b.TextDelta? || b.RefusalDelta? || (b.ItemDone? && b.item.Message? && MessageSays(b.item.content) != "")
  }

  predicate HasSaid(bodies: seq<Body>) {
    exists i :: 0 <= i < |bodies| && SaysText(bodies[i])
  }

  /** The pieces of text and of refusals; and a finished message when nothing has been said before it. */
  function Said(bodies: seq<Body>): string {
    if bodies == [] then ""
    else
      var most, last := bodies[..|bodies| - 1], bodies[|bodies| - 1];
      Said(most) +
      if last.TextDelta? || last.RefusalDelta? then last.delta
      else if last.ItemDone? && last.item.Message? && !HasSaid(most) then MessageSays(last.item.content)
      else ""
  }

  lemma HasSaidMore(bodies: seq<Body>)
    requires bodies != []
    ensures HasSaid(bodies) <==> HasSaid(bodies[..|bodies| - 1]) || SaysText(bodies[|bodies| - 1])
  {
    hide SaysText;
    var most := bodies[..|bodies| - 1];
    if HasSaid(most) {
      var i :| 0 <= i < |most| && SaysText(most[i]);
      assert SaysText(bodies[i]);
    }
    if HasSaid(bodies) {
      var i :| 0 <= i < |bodies| && SaysText(bodies[i]);
      if i < |most| { assert SaysText(most[i]); }
    }
  }

  lemma SpeechPieces(s: AnthropicState, text: string)
    ensures var sent := SendText(s, text);
            PieceTexts(sent.frames) == text && PieceThinkings(sent.frames) == "" && sent.state.textSeen
    ensures var sent := SendThinking(s, text);
            PieceTexts(sent.frames) == "" && PieceThinkings(sent.frames) == text && sent.state.textSeen == s.textSeen
  {
    StartSilent(s.(textSeen := true), TextType, TextBlock);
    StartSilent(s, ThinkingType, ThinkingBlock);
    var t, h := Start(s.(textSeen := true), TextType, TextBlock), Start(s, ThinkingType, ThinkingBlock);
    hide Start;
    var piece, thought := TextPiece(t.state.cursor.index, text), ThinkingPiece(h.state.cursor.index, text);
    PiecesAppend(t.frames, [piece]);
    PiecesAppend(h.frames, [thought]);
    OnePiece(piece);
    OnePiece(thought);
    SilentSaysNothing(t.frames);
    SilentSaysNothing(h.frames);
  }

  lemma OnePiece(f: Frame)
    ensures PieceTexts([f]) == (if f.TextPiece? then f.text else "")
    ensures PieceThinkings([f]) == (if f.ThinkingPiece? then f.text else "")
  {
    assert [f][..0] == [] && PieceTexts([f][..0]) == "" == PieceThinkings([f][..0]);
  }

  lemma StartSilent(s: AnthropicState, kind: BlockType, block: Block)
    ensures Quiet(s, Start(s, kind, block))
  {
  }

  /** What one event brings. */
  lemma EventSays(s: AnthropicState, b: Body, model: string, names: Names)
    ensures var sent := AnthropicStream(s, b, model, names);
            && (sent.state.textSeen <==> s.textSeen || SaysText(b))
            && PieceTexts(sent.frames)
               == (if b.TextDelta? || b.RefusalDelta? then b.delta
                   else if b.ItemDone? && b.item.Message? && !s.textSeen then MessageSays(b.item.content) else "")
            && PieceThinkings(sent.frames) == (if b.ReasoningDelta? then b.delta else "")
  {
    hide PieceTexts, PieceThinkings, Pump, FunctionDone, Terminate, SendText, SendThinking, MessageText, MessageSays,
         ItemFinished, Silent;
    var sent := AnthropicStream(s, b, model, names);
    match b {
      case TextDelta(delta) => SpeechPieces(s, delta);
      case RefusalDelta(delta) => SpeechPieces(s, delta);
      case ReasoningDelta(delta) => SpeechPieces(s, delta);
      case ItemDone(_, index, item) => ItemSays(s, index, item, names);
      case _ =>
        OthersQuiet(s, b, model, names);
        SilentSaysNothing(sent.frames);
    }
  }

  lemma OthersQuiet(s: AnthropicState, b: Body, model: string, names: Names)
    requires !b.TextDelta? && !b.RefusalDelta? && !b.ReasoningDelta? && !b.ItemDone?
    ensures Quiet(s, AnthropicStream(s, b, model, names))
  {
    hide Pump, FunctionDone, Terminate;
    match b {
      case ItemAdded(index, item) => if item.FunctionCall? { PumpQuiet(AddPending(s, index, item), names); }
      case ArgumentsDone(callId, _, index, arguments) =>
        var found := FunctionOutputIndex(s.functions, callId, index);
        if found.Some? { DoneQuiet(OfferArguments(s, found.value, arguments), found.value, names); }
      case Completed(_) => TerminateQuiet(s, ResponseOf(b), names);
      case Incomplete(_) => TerminateQuiet(s, ResponseOf(b), names);
      case _ =>
    }
  }

  lemma ItemSays(s: AnthropicState, index: int, item: Item, names: Names)
    ensures var sent := ItemFinished(s, index, item, names);
            && (sent.state.textSeen <==> s.textSeen || (item.Message? && MessageSays(item.content) != ""))
            && PieceTexts(sent.frames) == (if item.Message? && !s.textSeen then MessageSays(item.content) else "")
            && PieceThinkings(sent.frames) == ""
  {
    hide PieceTexts, PieceThinkings, Pump, FunctionDone, SendText, MessageText, MessageSays;
    var sent := ItemFinished(s, index, item, names);
    if item.Message? {
      MessageTextSays(item.content);
      SpeechPieces(s, MessageText(item.content));
      SilentSaysNothing([]);
    } else {
      if item.FunctionCall? { CallItemQuiet(s, index, item, names); }
      SilentSaysNothing(sent.frames);
    }
  }

  /**
   Of every event stream, the frames say exactly the text and the thinking: the pieces, and a finished message only if
   nothing had been said.
   */
  lemma {:induction false} AnyStreamIsSaid(model: string, bodies: seq<Body>, names: Names)
    ensures var t := Transcript(model, bodies, names);
            && PieceTexts(t.frames) == Said(bodies) && PieceThinkings(t.frames) == ReasoningDeltas(bodies)
            && (t.state.textSeen <==> HasSaid(bodies))
  {
    hide AnthropicStream, SaysText, MessageSays;
    if bodies == [] {
      assert PieceTexts([]) == "" == PieceThinkings([]);
    } else {
      var most, last := bodies[..|bodies| - 1], bodies[|bodies| - 1];
      AnyStreamIsSaid(model, most, names);
      var before := Transcript(model, most, names);
      EventSays(before.state, last, model, names);
      PiecesAppend(before.frames, AnthropicStream(before.state, last, model, names).frames);
      HasSaidMore(bodies);
      hide PieceTexts, PieceThinkings;
    }
  }

  // ----- The collected answer -----

  /** A part is a text block unless it is of another kind, with its refusal when it has no text. */
  function BlockFor(p: Part): seq<Content> {
    if p.kind == OtherPart then [] else [TextContent(if p.text != "" then p.text else p.refusal)]
  }

  function TextBlocksFor(parts: seq<Part>): seq<Content> {
    if parts == [] then [] else BlockFor(parts[0]) + TextBlocksFor(parts[1..])
  }

  lemma {:induction false} TextBlocksMore(parts: seq<Part>, p: Part)
    ensures TextBlocksFor(parts + [p]) == TextBlocksFor(parts) + BlockFor(p)
  {
    hide BlockFor;
    if parts == [] {
      assert parts + [p] == [p] && [p][1..] == [] && TextBlocksFor([p][1..]) == [];
      assert BlockFor(p) + [] == BlockFor(p) == [] + BlockFor(p);
    } else {
      var rest := parts[1..];
      TextBlocksMore(rest, p);
      assert (parts + [p])[1..] == rest + [p];
      hide TextBlocksFor;
      Regrouped(BlockFor(parts[0]), TextBlocksFor(rest), BlockFor(p));
    }
  }

  lemma {:induction false} TextContentsAre(parts: seq<Part>)
    ensures TextContents(parts) == TextBlocksFor(parts)
  {
    if parts != [] {
      var most, last := parts[..|parts| - 1], parts[|parts| - 1];
      TextContentsAre(most);
      TextBlocksMore(most, last);
      assert most + [last] == parts;
    }
  }

  /** The blocks that stand for one item of the output. */
  predicate BlocksFor(blocks: seq<Content>, item: Item, names: Names) {
    match item
    case Reasoning(_, summary, signature) =>
      blocks == if AllOf(summary) == "" == signature then [] else [ThinkingContent(AllOf(summary), signature)]
    case Message(_, parts) => blocks == TextBlocksFor(parts)
    case FunctionCall(callId, _, name, arguments) =>
      && |blocks| == 1 && blocks[0].ToolContent? && blocks[0].id == callId
      && Restored(blocks[0].name, names, name) && blocks[0].arguments == arguments
    case OtherItem => blocks == []
  }

  /** The content is that of the items, one behind the other. */
  ghost predicate ContentFor(content: seq<Content>, output: seq<Item>, names: Names)
    decreases |output|
  {
    if output == [] then content == []
    else
      exists k: nat :: k <= |content| && ContentFor(content[..k], output[..|output| - 1], names)
                       && BlocksFor(content[k..], output[|output| - 1], names)
  }

  lemma ItemBlocks(item: Item, names: Names)
    ensures BlocksFor(ContentOf(item, names), item, names)
  {
    if item.Reasoning? { JoinedIsAll(item.summary); }
    if item.Message? { TextContentsAre(item.content); }
  }

  lemma {:induction false} ContentsAre(output: seq<Item>, names: Names)
    ensures ContentFor(Contents(output, names), output, names)
  {
    hide ContentOf, BlocksFor;
    if output != [] {
      var most, last := output[..|output| - 1], output[|output| - 1];
      ContentsAre(most, names);
      ItemBlocks(last, names);
      var k, content := |Contents(most, names)|, Contents(output, names);
      assert content[..k] == Contents(most, names) && content[k..] == ContentOf(last, names);
    }
  }

  ghost predicate AnswersWith(a: Answer, r: Response, model: string, names: Names) {
    && a.id == r.id && a.model == (if r.model != "" then r.model else model)
    && ContentFor(a.content, r.output, names)
    && StopsAs(a.stopReason, HasCallItem(r.output), r) && a.stopSequence == r.stopSequence && Counts(a.usage, r.usage)
  }

  /** Any stream is answered exactly when some event carries a response, and then with what the last such event says. */
  lemma CollectsExactly(model: string, bodies: seq<Body>, names: Names)
    ensures var a := AnthropicResponse(model, bodies, names);
            && (a.Some? <==> exists i :: 0 <= i < |bodies| && CarriesResponse(bodies[i]))
            && forall k: nat :: ChatOfAnyStream.LastResponseAt(bodies, k) ==>
                 a.Some? && AnswersWith(a.value, bodies[k].response.value, model, names)
  {
    ChatOfAnyStream.TerminalIsSome(bodies);
    hide Contents, ContentFor, AnthropicStopReason, UsageFor, StopsAs, Counts, TerminalResponse;
    forall k: nat | ChatOfAnyStream.LastResponseAt(bodies, k)
      ensures TerminalResponse(bodies) == bodies[k].response
    {
      ChatOfAnyStream.LastIsTerminal(bodies, k);
    }
    var found := TerminalResponse(bodies);
    if found.Some? {
      var r := found.value;
      ContentsAre(r.output, names);
      assert HasCall(r.output) <==> HasCallItem(r.output);
      StopsSay(r, HasCall(r.output));
      assert AnswersWith(AnthropicResponse(model, bodies, names).value, r, model, names);
    }
  }
}
