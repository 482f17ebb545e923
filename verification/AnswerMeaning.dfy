/** Which event streams announce tools, and what their answers list of them. */
module AnsweredTools {
  import opened Basics
  import opened CanonicalEvents
  import opened FrameMeaning
  import opened MapperSteps
  import opened StreamProtocol

  /** Some event announces a tool. */
  predicate AnnouncesTool(bodies: seq<Body>) {
    exists i :: 0 <= i < |bodies| && bodies[i].ItemAdded? && bodies[i].item.FunctionCall?
  }

  lemma AdvanceAddsTools(l: Log, b: Body)
    requires Advance(l, b).Some?
    ensures ToolCount(Advance(l, b).value) == ToolCount(l) + if b.ItemAdded? && b.item.FunctionCall? then 1 else 0
  {
    hide ToolPositions, Rendered, HasTool, ClosesArguments;
    var n := Advance(l, b).value;
    if n.items == l.items {
    } else if |n.items| == |l.items| {
      ToolsUnmoved(l, b);
    } else {
      PositionsAppend(l.items, n.items[|l.items|]);
      assert n.items == l.items + [n.items[|l.items|]];
    }
  }

  lemma ToolsUnmoved(l: Log, b: Body)
    requires Advance(l, b).Some? && b.ArgumentsDelta?
    ensures ToolCount(Advance(l, b).value) == ToolCount(l)
  {
    hide ToolPositions, HasTool;
    PositionsKept(l.items, b.index.value, Advance(l, b).value.items[b.index.value]);
  }

  lemma {:induction false} AnnouncedExactly(bodies: seq<Body>)
    requires Feed(EMPTY_LOG, bodies).Some?
    ensures ToolCount(Feed(EMPTY_LOG, bodies).value) > 0 <==> AnnouncesTool(bodies)
  {
    hide Advance, ToolPositions;
    if bodies == [] {
      NoPositions();
    } else {
      var most, last := bodies[..|bodies| - 1], bodies[|bodies| - 1];
      AnnouncedExactly(most);
      AdvanceAddsTools(Feed(EMPTY_LOG, most).value, last);
      if AnnouncesTool(bodies) {
        var i :| 0 <= i < |bodies| && bodies[i].ItemAdded? && bodies[i].item.FunctionCall?;
        if i < |most| { assert most[i] == bodies[i]; }
      }
      if AnnouncesTool(most) {
        var i :| 0 <= i < |most| && most[i].ItemAdded? && most[i].item.FunctionCall?;
        assert bodies[i] == most[i];
      }
    }
  }

  lemma NoPositions()
    ensures ToolPositions([]) == []
  {
  }

  /** The tool calls of an output, in order. */
  function ToolItems(output: seq<Item>): (items: seq<Item>)
    ensures forall k :: 0 <= k < |items| ==> items[k].FunctionCall?
  {
    if output == [] then []
    else
      var last := output[|output| - 1];
      ToolItems(output[..|output| - 1]) + if last.FunctionCall? then [last] else []
  }

  /** A name that was shortened is known by its full form, any other one as it is. */
  predicate Restored(client: string, names: map<string, string>, name: string) {
    if name in names && names[name] != "" then client == names[name] else client == name
  }

  // ----- From frames -----

  predicate HasCallItem(output: seq<Item>) {
    exists p :: 0 <= p < |output| && output[p].FunctionCall?
  }

  predicate HasToolSlot(slots: seq<Slot>) {
    exists p :: 0 <= p < |slots| && slots[p].ToolSlot?
  }

  lemma {:induction false} ToolItemsCome(output: seq<Item>)
    ensures ToolItems(output) != [] <==> HasCallItem(output)
  {
    if output != [] {
      var most := output[..|output| - 1];
      ToolItemsCome(most);
      if HasCallItem(most) {
        var p :| 0 <= p < |most| && most[p].FunctionCall?;
        assert output[p] == most[p];
      }
      if HasCallItem(output) {
        var p :| 0 <= p < |output| && output[p].FunctionCall?;
        if p < |most| { assert most[p] == output[p]; }
      }
    }
  }

  lemma SlotsShow(frames: seq<Frame>, slots: seq<Slot>, output: seq<Item>)
    requires |slots| == |output| && forall p :: 0 <= p < |slots| ==> output[p] == ItemAt(frames, slots[p])
    ensures HasCallItem(output) <==> HasToolSlot(slots)
  {
    if HasToolSlot(slots) {
      var p :| 0 <= p < |slots| && slots[p].ToolSlot?;
      assert output[p].FunctionCall?;
    }
    if HasCallItem(output) {
      var p :| 0 <= p < |output| && output[p].FunctionCall?;
      assert slots[p].ToolSlot?;
    }
  }

  /** The output that frames ask for has a tool exactly when they carry a tool call. */
  lemma OutputHasTools(frames: seq<Frame>)
    ensures ToolItems(OutputOf(frames)) != [] <==> AllCalls(frames) != []
  {
    hide ToolItems, HasCallItem, HasToolSlot, ItemAt;
    CallsAreTools(frames);
    ToolItemsCome(OutputOf(frames));
    SlotsShow(frames, Slots(frames), OutputOf(frames));
  }

  lemma SlotsAppend(xs: seq<Slot>, ys: seq<Slot>)
    ensures HasToolSlot(xs + ys) <==> HasToolSlot(xs) || HasToolSlot(ys)
  {
    if HasToolSlot(xs) {
      var p :| 0 <= p < |xs| && xs[p].ToolSlot?;
      assert (xs + ys)[p] == xs[p];
    }
    if HasToolSlot(ys) {
      var p :| 0 <= p < |ys| && ys[p].ToolSlot?;
      assert (xs + ys)[|xs| + p] == ys[p];
    }
    if HasToolSlot(xs + ys) {
      var p :| 0 <= p < |xs + ys| && (xs + ys)[p].ToolSlot?;
      assert if p < |xs| then xs[p].ToolSlot? else ys[p - |xs|].ToolSlot?;
    }
  }

  /** Frames ask for a tool exactly when they carry a tool call. */
  lemma {:induction false} CallsAreTools(frames: seq<Frame>)
    ensures AllCalls(frames) != [] <==> HasToolSlot(Slots(frames))
  {
    hide HasToolSlot, NewTools;
    if frames == [] {
      SpeechHasNoTool(false, false);
    } else {
      var most, last := frames[..|frames| - 1], frames[|frames| - 1];
      var thinks, speaks := Thinkings(most) == "" && last.thinking != "", Texts(most) == "" && last.text != "";
      CallsAreTools(most);
      SpeechHasNoTool(thinks, speaks);
      var tools := NewTools(AllCalls(most), last.calls);
      SlotsAppend(Slots(most), SpeechOf(thinks, speaks));
      SlotsAppend(Slots(most) + SpeechOf(thinks, speaks), tools);
      assert Slots(frames) == Slots(most) + SpeechOf(thinks, speaks) + tools;
      CallsBringTools(AllCalls(most), last.calls);
    }
  }

  function SpeechOf(thinks: bool, speaks: bool): seq<Slot> {
    (if thinks then [ThinkingSlot] else []) + (if speaks then [TextSlot] else [])
  }

  lemma SpeechHasNoTool(thinks: bool, speaks: bool)
    ensures !HasToolSlot(SpeechOf(thinks, speaks)) && !HasToolSlot([])
  {
  }

  lemma {:induction false} CallsBringTools(before: seq<Call>, calls: seq<Call>)
    ensures HasToolSlot(NewTools(before, calls)) ==> calls != []
    ensures before == [] && calls != [] ==> HasToolSlot(NewTools(before, calls))
  {
    if before == [] && calls != [] {
      FirstCallIsTool(calls);
    }
  }

  lemma {:induction false} FirstCallIsTool(calls: seq<Call>)
    requires calls != []
    ensures NewTools([], calls) != [] && NewTools([], calls)[0].ToolSlot?
  {
    var most := calls[..|calls| - 1];
    if most == [] {
      assert [] + most == [] && NameOf([], ActiveAfter([] + calls)) == "";
    } else {
      FirstCallIsTool(most);
    }
  }
}

/** What the Chat answers say, read off the events, and for Devin off the frames. */
module ChatMeaning {
  import opened Basics
  import opened CanonicalEvents
  import opened FrameMeaning
  import opened AnsweredTools
  import opened StreamProtocol
  import opened MapperResults
  import opened ChatSteps
  import opened ChatAgreement
  import MapperConformance
  import MapperMeaning
  import MapperSteps

  /** Why an answer ends: a tool is to be called, a limit was reached, content was withheld, or it is complete. */
  predicate EndsAs(finish: string, toolCalled: bool, r: Response) {
    var cut := !toolCalled && r.status == "incomplete";
    && (finish == "tool_calls" <==> toolCalled)
    && (finish == "length" <==>
         cut && (r.incompleteReason == "max_output_tokens" || r.incompleteReason == "max_tokens"))
    && (finish == "content_filter" <==> cut && r.incompleteReason == "content_filter")
    && (finish == "tool_calls" || finish == "length" || finish == "content_filter" || finish == "stop")
  }

  /** Token counts are those of the response; a missing total is the sum, and details are given when there are any. */
  predicate Counts(u: ChatUsage, reported: Usage) {
    && u.prompt == reported.input && u.completion == reported.output
    && (reported.total != 0 ==> u.total == reported.total)
    && (reported.total == 0 ==> u.total == reported.input + reported.output)
    && (u.cached.Some? <==> reported.cached > 0) && (u.cached.Some? ==> u.cached.value == reported.cached)
    && (u.reasoning.Some? <==> reported.reasoning > 0)
    && (u.reasoning.Some? ==> u.reasoning.value == reported.reasoning)
  }

  /** The calls of an answer are those of the output, in order, under the names the client gave. */
  predicate CallsAre(calls: seq<ChatCall>, items: seq<Item>, names: Names) {
    && |calls| == |items|
    && forall k :: 0 <= k < |calls| ==>
         items[k].FunctionCall? && calls[k].id == items[k].callId && Restored(calls[k].name, names, items[k].name)
           && calls[k].arguments == items[k].arguments
  }

  lemma {:induction false} CallsOfAre(output: seq<Item>, names: Names)
    ensures CallsAre(CallsOf(output, names), ToolItems(output), names)
  {
    if output != [] { CallsOfAre(output[..|output| - 1], names); }
  }

  lemma EndsSay(r: Response, toolCalled: bool)
    ensures EndsAs(ChatStopReason(r, toolCalled), toolCalled, r) && Counts(ChatUsageOf(r), r.usage)
  {
  }

  /** What the collected answer says. */
  ghost predicate Tells(a: Completion, model: string, bodies: seq<Body>, names: Names)
    requires bodies != [] && bodies[0].Created? && CarriesResponse(bodies[|bodies| - 1])
  {
    var t := bodies[|bodies| - 1].response.value;
    && a.id == bodies[0].id && a.model == (if t.model != "" then t.model else model)
    && a.content == TextDeltas(bodies) && a.reasoning == ReasoningDeltas(bodies)
    && CallsAre(a.calls, ToolItems(t.output), names) && (a.calls != [] <==> AnnouncesTool(bodies))
    && EndsAs(a.finish, AnnouncesTool(bodies), t) && Counts(a.usage, t.usage)
  }

  lemma CollectedTells(model: string, bodies: seq<Body>, names: Names)
    requires Conforms(bodies)
    ensures bodies != [] && bodies[0].Created? && CarriesResponse(bodies[|bodies| - 1])
    ensures var a := ChatResponse(model, bodies, names); a.Some? && Tells(a.value, model, bodies, names)
  {
    hide Feed, Framed, ToolDrafts, TextOf, ReasoningOf, CallsOf, InStep, Converse, CallsAgree, EndsAs, Counts,
         ChatStopReason, ChatUsageOf, AnnouncesTool, CallsAre, TerminalResponse, ToolPositions, Rendered;
    PrefixFramed(bodies);
    FinishedSession(model, bodies, names);
    ResponseSays(model, bodies, names);
    FeedDelivers(bodies);
    AnnouncedExactly(bodies);
    TerminalFound(bodies);
    var t := bodies[|bodies| - 1].response.value;
    CallsOfAre(t.output, names);
    CallsCounted(ChatResponse(model, bodies, names).value.calls, Feed(EMPTY_LOG, bodies).value, names);
    EndsSay(t, AnnouncesTool(bodies));
  }

  lemma CallsCounted(calls: seq<ChatCall>, l: Log, names: Names)
    requires CallsAgree(calls, ToolDrafts(l.items), names)
    ensures |calls| == ToolCount(l)
  {
    hide ToolPositions;
  }

  /**
   For every conforming stream, streamed and collected: the texts are the deltas, the calls those of the terminal
   output, and ending and counts what the terminal response says.
   */
  lemma AnswerMeans(model: string, bodies: seq<Body>, names: Names)
    requires Conforms(bodies)
    ensures bodies != [] && bodies[0].Created? && CarriesResponse(bodies[|bodies| - 1])
    ensures var x, a := Converse(model, bodies, names), ChatResponse(model, bodies, names);
            x.Some? && a.Some? && SameAnswer(x.value.client, a.value) && Tells(a.value, model, bodies, names)
  {
    hide Converse, ChatResponse, Tells;
    StreamingAgrees(model, bodies, names);
    CollectedTells(model, bodies, names);
  }

  // ----- Every chunk -----

  /** A chunk speaks for the assistant when it brings text, reasoning or a new call. */
  predicate Speaks(d: Delta) {
    d.content.Some? || d.reasoning.Some? || (exists i :: 0 <= i < |d.tools| && d.tools[i].Announce?)
  }

  /** What every chunk says of its response: id and model, whose role it plays, and whether it is the last. */
  predicate ChunkIs(k: Chunk, id: string, model: string, last: bool) {
    && k.id == id && k.model == model
    && k.delta.role == (if Speaks(k.delta) then Some("assistant") else None)
    && (k.finish.Some? <==> last) && (k.usage.Some? <==> last)
  }

  predicate OpensOnce(bodies: seq<Body>) {
    bodies != [] && bodies[0].Created? && forall i :: 0 < i < |bodies| ==> !bodies[i].Created?
  }

  lemma {:induction false} StateIsNamed(model: string, bodies: seq<Body>, names: Names, k: nat)
    requires OpensOnce(bodies) && Converse(model, bodies, names).Some? && 0 < k <= |bodies|
    ensures var x := Converse(model, bodies[..k], names);
            && x.Some? && x.value.state.id == bodies[0].id
            && x.value.state.model == if bodies[0].model != "" then bodies[0].model else model
    decreases |bodies|
  {
    hide Receive;
    var most := bodies[..|bodies| - 1];
    if k < |bodies| {
      StateIsNamed(model, most, names, k);
      assert most[..k] == bodies[..k];
    } else {
      assert bodies[..k] == bodies;
      if k > 1 { StateIsNamed(model, most, names, |most|); assert most[..|most|] == most; }
      hide FunctionArguments, MessageDone, AnnounceFunction, Finish;
      NamesStay(Converse(model, most, names).value.state, bodies[|bodies| - 1], names);
    }
  }

  /** Only the opening event names the response. */
  lemma NamesStay(s: ChatState, b: Body, names: Names)
    ensures var n := ChatStream(s, b, names).state;
            if b.Created? then n.id == b.id && n.model == (if b.model != "" then b.model else s.model)
            else n.id == s.id && n.model == s.model
  {
  }

  lemma ChunkSays(s: ChatState, b: Body, names: Names)
    ensures var e := ChatStream(s, b, names);
            e.chunk.Some? ==> !b.Created? && ChunkIs(e.chunk.value, s.id, s.model, IsTerminal(b))
  {
    hide ChatStopReason, ChatUsageOf, PartsText, ChatFunctionIndex, ClientName;
    var e := ChatStream(s, b, names);
    if e.chunk.Some? && (b.ItemAdded? || (b.ItemDone? && b.item.FunctionCall?)) {
      assert e.chunk.value.delta.tools[0].Announce?;
    }
  }

  /** Every chunk of a conforming stream carries the id and the model it was opened with, and the last one finishes. */
  lemma ChunksAreNamed(model: string, bodies: seq<Body>, names: Names, k: nat)
    requires Conforms(bodies) && k < |bodies|
    ensures bodies[0].Created? && Converse(model, bodies[..k], names).Some?
    ensures var chunk := ChatStream(Converse(model, bodies[..k], names).value.state, bodies[k], names).chunk;
            && (chunk.Some? ==>
                 ChunkIs(chunk.value, bodies[0].id, if bodies[0].model != "" then bodies[0].model else model,
                         k == |bodies| - 1))
            && (k == |bodies| - 1 ==> chunk.Some?)
  {
    hide Feed, Converse, ChunkIs, Receive, ChatResponse, SameAnswer, Rendered;
    StreamingAgrees(model, bodies, names);
    PrefixFramed(bodies);
    if k > 0 {
      StateIsNamed(model, bodies, names, k);
    } else {
      assert bodies[..0] == [];
      NobodyHeard(model, names);
    }
    ChunkSays(Converse(model, bodies[..k], names).value.state, bodies[k], names);
    hide AnnounceFunction, FunctionArguments, MessageDone;
  }

  lemma NobodyHeard(model: string, names: Names)
    ensures Converse(model, [], names).Some?
  {
  }

  /** Why Devin's answers end: a tool call anywhere, and otherwise the last stop reason that is one. */
  function FinishFor(frames: seq<MapperSteps.Frame>): string {
    if AllCalls(frames) != [] then "tool_calls"
    else if LastStop(frames) == MapperSteps.StopMaxTokens then "length"
    else if LastStop(frames) == MapperSteps.StopContentFilter then "content_filter"
    else "stop"
  }

  /** What the frames ask an answer to be. */
  ghost predicate AnswersFrames(a: Completion, frames: seq<MapperSteps.Frame>, selected: string, given: string,
        model: string, names: Names) {
    && a.id == ResponseId(frames, given)
    && a.model == (if LastModel(frames, selected) != "" then LastModel(frames, selected) else model)
    && a.content == Texts(frames) && a.reasoning == Thinkings(frames)
    && CallsAre(a.calls, ToolItems(OutputOf(frames)), names)
    && a.finish == FinishFor(frames) && Counts(a.usage, LastUsage(frames))
  }

  lemma FramesTold(a: Completion, model: string, bodies: seq<Body>, frames: seq<MapperSteps.Frame>, selected: string,
        given: string, names: Names)
    requires bodies != [] && bodies[0].Created? && CarriesResponse(bodies[|bodies| - 1])
    requires bodies[|bodies| - 1].response.value == ResponseFor(frames, selected, given)
    requires bodies[0].id == ResponseId(frames, given)
    requires TextDeltas(bodies) == Texts(frames) && ReasoningDeltas(bodies) == Thinkings(frames)
    requires Tells(a, model, bodies, names)
    ensures AnswersFrames(a, frames, selected, given, model, names)
  {
    hide AllCalls, OutputOf, ToolItems, CallsAre, Counts, Texts, Thinkings, TextDeltas, ReasoningDeltas, LastUsage,
         LastModel, ResponseId, LastStop, AnnouncesTool;
    OutputHasTools(frames);
    assert |a.calls| == |ToolItems(OutputOf(frames))| by { SameNumber(a.calls, ToolItems(OutputOf(frames)), names); }
  }

  lemma SameNumber(calls: seq<ChatCall>, items: seq<Item>, names: Names)
    requires CallsAre(calls, items, names)
    ensures |calls| == |items|
  {
  }

  /** Every accepted run is answered, streamed and collected, as its frames ask. */
  lemma DevinAnswersFrames(selected: string, given: string, limit: int, frames: seq<MapperSteps.Frame>,
        valid: MapperSteps.JsonTest, model: string, names: Names)
    requires limit >= 0
    requires MapperConformance.Run(MapperSteps.Initial(selected, given, limit), frames, valid).ok
    ensures var o := MapperConformance.Run(MapperSteps.Initial(selected, given, limit), frames, valid);
            var x, a := Converse(model, Bodies(o.events), names), ChatResponse(model, Bodies(o.events), names);
            && x.Some? && a.Some? && SameAnswer(x.value.client, a.value)
            && AnswersFrames(a.value, frames, selected, given, model, names)
  {
    hide MapperConformance.Run, Converse, ChatResponse, SameAnswer, Conforms, Tells, AnswersFrames;
    var o := MapperConformance.Run(MapperSteps.Initial(selected, given, limit), frames, valid);
    var bodies := Bodies(o.events);
    MapperMeaning.RunAsked(selected, given, limit, frames, valid);
    AnswerMeans(model, bodies, names);
    MapperMeaning.RunMeans(selected, given, limit, frames, valid);
    FramesTold(ChatResponse(model, bodies, names).value, model, bodies, frames, selected, given, names);
  }
}

/** What the Anthropic answers say, read off the events, and for Devin off the frames. */
module AnthropicMeaning {
  import opened Basics
  import opened CanonicalEvents
  import opened FrameMeaning
  import opened AnsweredTools
  import opened StreamProtocol
  import opened MapperResults
  import opened AnthropicSteps
  import opened AnthropicDelivery
  import MapperConformance
  import MapperMeaning
  import MapperSteps

  /** The response itself gives no stop reason that is known. */
  predicate Unexplained(r: Response) {
    && r.stopReason != "stop_sequence" && r.stopReason != "refusal" && r.stopReason != "content_filter"
    && r.stopReason != "max_output_tokens" && r.stopReason != "max_tokens" && r.stopReason != "length"
  }

  predicate Cut(r: Response, reason: string) {
    r.status == "incomplete" && r.incompleteReason == reason
  }

  predicate RefusesSomewhere(output: seq<Item>) {
    exists i, j :: 0 <= i < |output| && output[i].Message? && 0 <= j < |output[i].content|
      && output[i].content[j].kind == Refusal
  }

  predicate StopsAtSequence(r: Response) {
    r.stopReason == "stop_sequence" || (Unexplained(r) && (r.stopSequence != "" || Cut(r, "stop_sequence")))
  }

  predicate StopsAtLimit(r: Response) {
    || r.stopReason == "max_output_tokens" || r.stopReason == "max_tokens" || r.stopReason == "length"
    || (Unexplained(r) && r.stopSequence == "" && (Cut(r, "max_output_tokens") || Cut(r, "max_tokens")))
  }

  predicate StopsRefused(r: Response) {
    || r.stopReason == "refusal" || r.stopReason == "content_filter"
    || (Unexplained(r) && r.stopSequence == "" && (Cut(r, "content_filter") || Cut(r, "refusal")))
    || (Unexplained(r) && r.stopSequence == "" && !StopsAtSequence(r) && !StopsAtLimit(r) && RefusesSomewhere(r.output))
  }

  /** Why an answer stops: a tool is to be used first of all, and otherwise what the response says. */
  predicate StopsAs(reason: string, toolCalled: bool, r: Response) {
    && (reason == "tool_use" <==> toolCalled)
    && (reason == "stop_sequence" <==> !toolCalled && StopsAtSequence(r))
    && (reason == "max_tokens" <==> !toolCalled && StopsAtLimit(r))
    && (reason == "refusal" <==> !toolCalled && StopsRefused(r))
    && (reason == "end_turn" <==> !toolCalled && !StopsAtSequence(r) && !StopsAtLimit(r) && !StopsRefused(r))
  }

  predicate Counts(u: MessageUsage, reported: Usage) {
    && u.input == reported.input && u.output == reported.output
    && (u.cacheRead.Some? <==> reported.cached > 0) && (u.cacheRead.Some? ==> u.cacheRead.value == reported.cached)
  }

  lemma StopsSay(r: Response, toolCalled: bool)
    ensures StopsAs(AnthropicStopReason(r, toolCalled), toolCalled, r) && Counts(UsageFor(r), r.usage)
  {
    assert HasRefusal(r.output) <==> RefusesSomewhere(r.output);
    hide HasRefusal, RefusesSomewhere;
  }

  /** The tool blocks of an answer are the calls of the output, in order, under the names the client gave. */
  predicate ToolsAre(blocks: seq<Content>, items: seq<Item>, names: Names) {
    && |blocks| == |items|
    && forall k :: 0 <= k < |blocks| ==>
         blocks[k].ToolContent? && items[k].FunctionCall? && blocks[k].id == items[k].callId
           && Restored(blocks[k].name, names, items[k].name) && blocks[k].arguments == items[k].arguments
  }

  lemma {:induction false} ToolsInAppend(xs: seq<Content>, ys: seq<Content>)
    ensures ToolsIn(xs + ys) == ToolsIn(xs) + ToolsIn(ys)
  {
    if ys == [] {
      assert xs + ys == xs;
    } else {
      ToolsInAppend(xs, ys[..|ys| - 1]);
      assert (xs + ys)[..|xs + ys| - 1] == xs + ys[..|ys| - 1];
    }
  }

  lemma {:induction false} NoToolsInTexts(parts: seq<Part>)
    ensures ToolsIn(TextContents(parts)) == []
  {
    if parts != [] {
      var most := parts[..|parts| - 1];
      NoToolsInTexts(most);
      ToolsInAppend(TextContents(most), if parts[|parts| - 1].kind.OtherPart? then [] else
          [TextContent(if parts[|parts| - 1].text == "" then parts[|parts| - 1].refusal else parts[|parts| - 1].text)]);
    }
  }

  /** The tool block of one item, if it is a call. */
  lemma ItemTools(item: Item, names: Names)
    ensures var blocks := ToolsIn(ContentOf(item, names));
            if item.FunctionCall? then ToolsAre(blocks, [item], names) else blocks == []
  {
    if item.Message? { NoToolsInTexts(item.content); }
  }

  lemma {:induction false} ToolsOfAre(output: seq<Item>, names: Names)
    ensures ToolsAre(ToolsIn(Contents(output, names)), ToolItems(output), names)
  {
    if output != [] {
      var most, last := output[..|output| - 1], output[|output| - 1];
      ToolsOfAre(most, names);
      ToolsInAppend(Contents(most, names), ContentOf(last, names));
      ItemTools(last, names);
      hide ToolsIn, ContentOf;
    }
  }

  /** What the collected answer says. */
  ghost predicate Tells(a: Answer, model: string, bodies: seq<Body>, names: Names)
    requires bodies != [] && bodies[0].Created? && CarriesResponse(bodies[|bodies| - 1])
  {
    var t := bodies[|bodies| - 1].response.value;
    && a.id == bodies[0].id && a.model == (if t.model != "" then t.model else model)
    && TextIn(a.content) == TextDeltas(bodies) && ThinkingIn(a.content) == ReasoningDeltas(bodies)
    && ToolsAre(ToolsIn(a.content), ToolItems(t.output), names)
    && (ToolItems(t.output) != [] <==> AnnouncesTool(bodies))
    && StopsAs(a.stopReason, AnnouncesTool(bodies), t) && a.stopSequence == t.stopSequence && Counts(a.usage, t.usage)
  }

  lemma CollectedTells(model: string, bodies: seq<Body>, names: Names)
    requires Conforms(bodies)
    ensures bodies != [] && bodies[0].Created? && CarriesResponse(bodies[|bodies| - 1])
    ensures var a := AnthropicResponse(model, bodies, names); a.Some? && Tells(a.value, model, bodies, names)
    ensures AnthropicResponse(model, bodies, names).value.content
         == Contents(bodies[|bodies| - 1].response.value.output, names)
  {
    hide Feed, ToolDrafts, TextIn, ThinkingIn, ToolsIn, Contents, InStep, Converse, StopsAs, Counts, Consistent,
         AnthropicStopReason, UsageFor, AnnouncesTool, ToolsAre, TerminalResponse, ToolPositions, Rendered, HasCall;
    PrefixFramed(bodies);
    FinishedSession(model, bodies, names);
    AnswerSays(model, bodies, Feed(EMPTY_LOG, bodies).value, names);
    FeedDelivers(bodies);
    AnnouncedExactly(bodies);
    var t := bodies[|bodies| - 1].response.value;
    ToolsOfAre(t.output, names);
    ToolsCounted(ToolsIn(Contents(t.output, names)), ToolItems(t.output), Feed(EMPTY_LOG, bodies).value, names);
    StopsSay(t, AnnouncesTool(bodies));
  }

  lemma ToolsCounted(blocks: seq<Content>, items: seq<Item>, l: Log, names: Names)
    requires ToolsAre(blocks, items, names) && ToolsSaid(blocks, ToolDrafts(l.items), names)
    ensures |items| == ToolCount(l)
  {
    hide ToolPositions;
  }

  /**
   For every conforming stream, streamed and collected: the texts are the deltas, the tools those of the terminal
   output, and stop reason and counts what the terminal response says.
   */
  lemma AnswerMeans(model: string, bodies: seq<Body>, names: Names)
    requires Conforms(bodies)
    ensures bodies != [] && bodies[0].Created? && CarriesResponse(bodies[|bodies| - 1])
    ensures var x, a := Converse(model, bodies, names), AnthropicResponse(model, bodies, names);
            x.Some? && a.Some? && Delivered(x.value.heard, a.value) && Tells(a.value, model, bodies, names)
  {
    hide Converse, AnthropicResponse, Tells, Delivered;
    ToolsDelivered(model, bodies, names);
    CollectedTells(model, bodies, names);
  }

  // ----- From frames -----

  /** Why Devin's answers stop: a tool call anywhere, and otherwise the last stop reason that is one. */
  function StopFor(frames: seq<MapperSteps.Frame>): string {
    if AllCalls(frames) != [] then "tool_use"
    else if LastStop(frames) == MapperSteps.StopMaxTokens then "max_tokens"
    else if LastStop(frames) == MapperSteps.StopContentFilter then "refusal"
    else "end_turn"
  }

  /** One block stands for one slot. */
  predicate BlockIs(c: Content, slot: Slot, frames: seq<MapperSteps.Frame>, names: Names) {
    match slot
    case ThinkingSlot => c == ThinkingContent(Thinkings(frames), LastSignature(frames))
    case TextSlot => c == TextContent(Texts(frames))
    case ToolSlot(id, name) =>
      c.ToolContent? && c.id == id && Restored(c.name, names, name) && c.arguments == ArgumentsFor(AllCalls(frames), id)
  }

  predicate BlocksAre(content: seq<Content>, frames: seq<MapperSteps.Frame>, names: Names) {
    var slots := Slots(frames);
    |content| == |slots| && forall p :: 0 <= p < |slots| ==> BlockIs(content[p], slots[p], frames, names)
  }

  /** What the frames ask an answer to be. */
  ghost predicate AnswersFrames(a: Answer, frames: seq<MapperSteps.Frame>, selected: string, given: string,
        model: string, names: Names) {
    && a.id == ResponseId(frames, given)
    && a.model == (if LastModel(frames, selected) != "" then LastModel(frames, selected) else model)
    && BlocksAre(a.content, frames, names)
    && a.stopReason == StopFor(frames) && a.stopSequence == "" && Counts(a.usage, LastUsage(frames))
  }

  lemma {:induction false} ThinkingSlotSaysSo(frames: seq<MapperSteps.Frame>, p: nat)
    requires p < |Slots(frames)| && Slots(frames)[p] == ThinkingSlot
    ensures Thinkings(frames) != ""
  {
    var most, last := frames[..|frames| - 1], frames[|frames| - 1];
    if p < |Slots(most)| {
      assert Slots(frames)[p] == Slots(most)[p];
      ThinkingSlotSaysSo(most, p);
    } else if Thinkings(most) == "" && last.thinking == "" {
      OnlyTools(AllCalls(most), last.calls);
    }
    hide NewTools, AllCalls;
  }

  lemma {:induction false} OnlyTools(before: seq<MapperSteps.Call>, calls: seq<MapperSteps.Call>)
    ensures forall p :: 0 <= p < |NewTools(before, calls)| ==> NewTools(before, calls)[p].ToolSlot?
  {
    if calls != [] { OnlyTools(before, calls[..|calls| - 1]); }
    hide NameOf;
  }

  lemma SlotContent(frames: seq<MapperSteps.Frame>, slot: Slot, names: Names)
    requires slot == ThinkingSlot ==> Thinkings(frames) != ""
    ensures var content := ContentOf(ItemAt(frames, slot), names);
            |content| == 1 && BlockIs(content[0], slot, frames, names)
  {
    hide Thinkings, Texts, LastSignature, AllCalls;
    var parts := [Part(OutputText, Texts(frames), "")];
    assert parts[..0] == [] && TextContents(parts[..0]) == [];
    assert [Thinkings(frames)][..0] == [] && Joined([Thinkings(frames)][..0]) == "";
  }

  lemma {:induction false} BlocksSay(frames: seq<MapperSteps.Frame>, n: nat, names: Names)
    requires n <= |Slots(frames)|
    ensures var content := Contents(OutputOf(frames)[..n], names);
            |content| == n && forall p :: 0 <= p < n ==> BlockIs(content[p], Slots(frames)[p], frames, names)
  {
    hide BlockIs, ContentOf, ItemAt, Slots;
    if n > 0 {
      BlocksSay(frames, n - 1, names);
      var slot := Slots(frames)[n - 1];
      if slot == ThinkingSlot { ThinkingSlotSaysSo(frames, n - 1); }
      SlotContent(frames, slot, names);
      assert OutputOf(frames)[..n][..n - 1] == OutputOf(frames)[..n - 1];
      assert OutputOf(frames)[..n][n - 1] == ItemAt(frames, slot);
    }
  }

  /** A response that gives no stop reason of its own stops by the reason it is incomplete for, if any. */
  lemma PlainStop(reason: string, toolCalled: bool, r: Response)
    requires StopsAs(reason, toolCalled, r) && r.stopReason == "" == r.stopSequence && !RefusesSomewhere(r.output)
    requires r.status == "incomplete" ==>
               r.incompleteReason in ["max_output_tokens", "incomplete", "content_filter"]
    ensures reason ==
            if toolCalled then "tool_use"
            else if Cut(r, "max_output_tokens") then "max_tokens"
            else if Cut(r, "content_filter") then "refusal"
            else "end_turn"
  {
    hide RefusesSomewhere;
  }

  lemma FramesStop(reason: string, toolCalled: bool, frames: seq<MapperSteps.Frame>, selected: string, given: string)
    requires StopsAs(reason, toolCalled, ResponseFor(frames, selected, given))
    requires toolCalled <==> AllCalls(frames) != []
    ensures reason == StopFor(frames)
  {
    hide StopsAs, OutputOf, AllCalls, RefusesSomewhere, LastStop, LastModel, ResponseId, LastUsage;
    NothingRefused(frames);
    PlainStop(reason, toolCalled, ResponseFor(frames, selected, given));
  }

  lemma NothingRefused(frames: seq<MapperSteps.Frame>)
    ensures !RefusesSomewhere(OutputOf(frames))
  {
    hide Slots, AllCalls;
  }

  lemma FramesTold(a: Answer, model: string, bodies: seq<Body>, frames: seq<MapperSteps.Frame>, selected: string,
        given: string, names: Names)
    requires bodies != [] && bodies[0].Created? && CarriesResponse(bodies[|bodies| - 1])
    requires bodies[|bodies| - 1].response.value == ResponseFor(frames, selected, given)
    requires bodies[0].id == ResponseId(frames, given)
    requires Tells(a, model, bodies, names) && a.content == Contents(OutputOf(frames), names)
    ensures AnswersFrames(a, frames, selected, given, model, names)
  {
    OutputHasTools(frames);
    BlocksSay(frames, |Slots(frames)|, names);
    assert OutputOf(frames)[..|Slots(frames)|] == OutputOf(frames);
    hide AllCalls, OutputOf, ToolItems, ToolsAre, Counts, LastUsage, LastModel, ResponseId, AnnouncesTool, StopsAs,
         TextDeltas, ReasoningDeltas, ToolsIn, TextIn, ThinkingIn, Slots, BlockIs;
    FramesStop(a.stopReason, AnnouncesTool(bodies), frames, selected, given);
  }

  /** Every accepted run is answered, streamed and collected, as its frames ask. */
  lemma DevinAnswersFrames(selected: string, given: string, limit: int, frames: seq<MapperSteps.Frame>,
        valid: MapperSteps.JsonTest, model: string, names: Names)
    requires limit >= 0
    requires MapperConformance.Run(MapperSteps.Initial(selected, given, limit), frames, valid).ok
    ensures var o := MapperConformance.Run(MapperSteps.Initial(selected, given, limit), frames, valid);
            var x, a := Converse(model, Bodies(o.events), names), AnthropicResponse(model, Bodies(o.events), names);
            && x.Some? && a.Some? && Delivered(x.value.heard, a.value)
            && AnswersFrames(a.value, frames, selected, given, model, names)
  {
    hide MapperConformance.Run, Converse, AnthropicResponse, Delivered, Conforms, Tells, AnswersFrames, Contents;
    var o := MapperConformance.Run(MapperSteps.Initial(selected, given, limit), frames, valid);
    var bodies := Bodies(o.events);
    MapperMeaning.RunAsked(selected, given, limit, frames, valid);
    AnswerMeans(model, bodies, names);
    CollectedTells(model, bodies, names);
    FramesTold(AnthropicResponse(model, bodies, names).value, model, bodies, frames, selected, given, names);
  }
}
