/**
 Where frames stand, bracketed or not: blocks are stopped one after the other,
 every piece goes to an index at which a block of its kind was started last, and
 the message begins and ends once.
 */
module AnthropicPlacement {
  import opened Basics
  import opened CanonicalEvents
  import opened StreamProtocol
  import opened MapperResults
  import opened AnthropicSteps
  import AnthropicBrackets
  import MapperConformance
  import MapperSteps

  /** What a lenient client tracks: the number of blocks stopped, and the kind of the last block at each index. */
  datatype Page = Page(begun: bool, index: int, started: bool, kinds: map<int, BlockType>, ended: nat)

  const BLANK_PAGE := Page(false, 0, false, map[], 0)

  function TypeOf(b: Block): BlockType {
    match b
    case ThinkingBlock => ThinkingType
    case TextBlock => TextType
    case ToolBlock(_, _) => ToolType
  }

  predicate Goes(p: Page) {
    p.begun && p.ended == 0
  }

  predicate Belongs(p: Page, index: int, kind: BlockType) {
    Goes(p) && index in p.kinds && p.kinds[index] == kind
  }

  /** None when a frame stands where it may not. */
  function Place(p: Page, f: Frame): Option<Page> {
    match f
    case MessageStart(_, _) => if p == BLANK_PAGE then Some(p.(begun := true)) else None
    case BlockStart(index, block) =>
      if Goes(p) && index == p.index then Some(p.(started := true, kinds := p.kinds[index := TypeOf(block)])) else None
    case BlockStop(index) =>
      if Goes(p) && index == p.index && p.started then Some(p.(index := index + 1, started := false)) else None
    case ThinkingPiece(index, _) => if Belongs(p, index, ThinkingType) then Some(p) else None
    case SignaturePiece(index, _) => if Belongs(p, index, ThinkingType) then Some(p) else None
    case TextPiece(index, _) => if Belongs(p, index, TextType) then Some(p) else None
    case JsonPiece(index, _) => if Belongs(p, index, ToolType) then Some(p) else None
    case MessageDelta(_, _, _) => if Goes(p) && !p.started then Some(p.(ended := 1)) else None
    case MessageStop => if p.ended == 1 then Some(p.(ended := 2)) else None
  }

  function PlaceAll(p: Page, frames: seq<Frame>): Option<Page> {
    if frames == [] then Some(p)
    else
      var most := PlaceAll(p, frames[..|frames| - 1]);
      if most.None? then None else Place(most.value, frames[|frames| - 1])
  }

  lemma {:induction false} PlaceAppend(p: Page, xs: seq<Frame>, ys: seq<Frame>)
    requires PlaceAll(p, xs).Some?
    ensures PlaceAll(p, xs + ys) == PlaceAll(PlaceAll(p, xs).value, ys)
  {
    hide Place;
    if ys == [] {
      assert xs + ys == xs;
    } else {
      PlaceAppend(p, xs, ys[..|ys| - 1]);
      assert (xs + ys)[..|xs + ys| - 1] == xs + ys[..|ys| - 1];
    }
  }

  lemma PlaceOne(p: Page, f: Frame)
    ensures PlaceAll(p, [f]) == Place(p, f) && PlaceAll(p, []) == Some(p)
  {
    hide Place;
    assert [f][..0] == [];
    assert PlaceAll(p, [f][..0]) == Some(p);
  }

  // ----- The invariant -----

  /** The page and the cursor agree, and every index up to it has been used. */
  ghost predicate AtCursor(p: Page, c: Cursor) {
    && Goes(p) && p.index == c.index >= 0 && (p.started <==> c.kind != NoBlock)
    && (p.started ==> p.index in p.kinds && p.kinds[p.index] == c.kind)
    && forall i :: i in p.kinds <==> 0 <= i < p.index + if p.started then 1 else 0
  }

  /** The active tool has a block, which is the open one or has been stopped. */
  predicate HasBlock(p: Page, c: Cursor, f: Functions) {
    f.active ==>
      && f.activeOutput in f.blocks && Belongs(p, f.blocks[f.activeOutput], ToolType)
      && (f.blocks[f.activeOutput] < c.index || (f.blocks[f.activeOutput] == c.index && c.kind == ToolType))
  }

  ghost predicate Placed(p: Page, s: AnthropicState) {
    AtCursor(p, s.cursor) && HasBlock(p, s.cursor, s.functions)
  }

  ghost predicate Stays(p: Page, sent: Sent) {
    PlaceAll(p, sent.frames).Some? && Placed(PlaceAll(p, sent.frames).value, sent.state)
  }

  lemma Nothing(p: Page, s: AnthropicState)
    requires Placed(p, s)
    ensures Stays(p, Sent(s, []))
  {
    assert PlaceAll(p, []) == Some(p);
  }

  lemma OnePlaced(p: Page, s: AnthropicState, f: Frame)
    requires Place(p, f).Some? && Placed(Place(p, f).value, s)
    ensures Stays(p, Sent(s, [f]))
  {
    hide Place, Placed;
    PlaceOne(p, f);
  }

  lemma ThenPlaced(p: Page, xs: seq<Frame>, sent: Sent)
    requires PlaceAll(p, xs).Some? && Stays(PlaceAll(p, xs).value, sent)
    ensures Stays(p, Following(xs, sent))
  {
    hide Placed, PlaceAll;
    PlaceAppend(p, xs, sent.frames);
  }

  // ----- Sub-steps -----

  lemma CloseStays(p: Page, s: AnthropicState)
    requires Placed(p, s)
    ensures Stays(p, CloseBlock(s)) && CloseBlock(s).state.cursor.kind == NoBlock
    ensures CloseBlock(s).state == s.(cursor := CloseBlock(s).state.cursor)
  {
    hide PlaceAll;
    if s.cursor.kind == NoBlock {
      Nothing(p, s);
    } else {
      OnePlaced(p, CloseBlock(s).state, BlockStop(s.cursor.index));
    }
  }

  /** A block started on top of nothing, or of another block. */
  lemma BlockStays(p: Page, s: AnthropicState, kind: BlockType, block: Block)
    requires Placed(p, s) && TypeOf(block) == kind && (s.functions.active ==> s.cursor.kind == NoBlock)
    ensures Stays(p, Sent(s.(cursor := Cursor(s.cursor.index, kind)), [BlockStart(s.cursor.index, block)]))
  {
    OnePlaced(p, s.(cursor := Cursor(s.cursor.index, kind)), BlockStart(s.cursor.index, block));
  }

  lemma StartStays(p: Page, s: AnthropicState, kind: BlockType, block: Block)
    requires Placed(p, s) && TypeOf(block) == kind
    ensures Stays(p, Start(s, kind, block)) && Start(s, kind, block).state.cursor.kind == kind
  {
    hide PlaceAll, Placed, CloseBlock;
    if s.cursor.kind == kind {
      Nothing(p, s);
    } else {
      var closed := CloseBlock(s);
      CloseStays(p, s);
      var c := closed.state.cursor;
      BlockStays(PlaceAll(p, closed.frames).value, closed.state, kind, block);
      ThenPlaced(p, closed.frames,
                 Sent(closed.state.(cursor := Cursor(c.index, kind)), [BlockStart(c.index, block)]));
    }
  }

  lemma PieceStays(p: Page, s: AnthropicState, f: Frame)
    requires Placed(p, s) && s.cursor.kind != NoBlock
    requires match f
             case ThinkingPiece(index, _) => index == s.cursor.index && s.cursor.kind == ThinkingType
             case SignaturePiece(index, _) => index == s.cursor.index && s.cursor.kind == ThinkingType
             case TextPiece(index, _) => index == s.cursor.index && s.cursor.kind == TextType
             case _ => false
    ensures Stays(p, Sent(s, [f]))
  {
    OnePlaced(p, s, f);
  }

  lemma SpeechStays(p: Page, s: AnthropicState, text: string)
    requires Placed(p, s)
    ensures Stays(p, SendText(s, text)) && Stays(p, SendThinking(s, text))
  {
    hide PlaceAll, Start;
    var spoken := s.(textSeen := true);
    assert Placed(p, spoken);
    hide Placed;
    StartStays(p, spoken, TextType, TextBlock);
    var started := Start(spoken, TextType, TextBlock);
    PieceStays(PlaceAll(p, started.frames).value, started.state, TextPiece(started.state.cursor.index, text));
    ThenPlaced(p, started.frames, Sent(started.state, [TextPiece(started.state.cursor.index, text)]));
    StartStays(p, s, ThinkingType, ThinkingBlock);
    var thought := Start(s, ThinkingType, ThinkingBlock);
    PieceStays(PlaceAll(p, thought.frames).value, thought.state, ThinkingPiece(thought.state.cursor.index, text));
    ThenPlaced(p, thought.frames, Sent(thought.state, [ThinkingPiece(thought.state.cursor.index, text)]));
  }

  /** Only what a tool's placement depends on. */
  predicate SameBlocks(f: Functions, g: Functions) {
    g.active == f.active && g.activeOutput == f.activeOutput && g.blocks == f.blocks
  }

  lemma MovedFunctions(p: Page, s: AnthropicState, t: AnthropicState)
    requires Placed(p, s) && t.cursor == s.cursor && SameBlocks(s.functions, t.functions)
    ensures Placed(p, t)
  {
  }

  lemma InputStays(p: Page, s: AnthropicState, json: string)
    requires Placed(p, s) && s.functions.active
    ensures Stays(p, Sent(s, [JsonPiece(BlockOf(s.functions, s.functions.activeOutput), json)]))
  {
    OnePlaced(p, s, JsonPiece(BlockOf(s.functions, s.functions.activeOutput), json));
  }

  lemma FlushStays(p: Page, s: AnthropicState)
    requires Placed(p, s) && s.functions.active
    ensures Stays(p, Flush(s, s.functions.activeOutput))
    ensures var t := Flush(s, s.functions.activeOutput).state;
            t == s.(functions := t.functions) && SameBlocks(s.functions, t.functions)
  {
    hide PlaceAll, Placed;
    var flushed := Flush(s, s.functions.activeOutput);
    MovedFunctions(p, s, flushed.state);
    if flushed.frames == [] {
      Nothing(p, flushed.state);
    } else {
      InputStays(p, flushed.state, PendingArgumentsOf(s.functions, s.functions.activeOutput));
    }
  }

  lemma OpenStays(p: Page, s: AnthropicState, index: int, names: Names)
    requires Placed(p, s) && !s.functions.active && index in s.functions.pending
    ensures Stays(p, OpenFunction(s, index, names))
  {
    hide PlaceAll;
    var f := s.functions;
    var item := f.pending[index];
    var block := BlockStart(s.cursor.index, ToolBlock(CallIdOf(item), ClientName(names, item.name)));
    var t := s.(hasClientTool := true, cursor := Cursor(s.cursor.index, ToolType),
                functions := f.(pending := f.pending - {index}, active := true, activeOutput := index,
                                blocks := f.blocks[index := s.cursor.index]));
    OnePlaced(p, t, block);
    hide Placed;
    var q := PlaceAll(p, [block]).value;
    FlushStays(q, t);
    var flushed := Flush(t, index);
    ThenPlaced(p, [block], flushed);
    MovedFunctions(PlaceAll(p, [block] + flushed.frames).value, flushed.state, MarkSeen(flushed.state, index));
    MovedFunctions(PlaceAll(p, [block] + flushed.frames).value, flushed.state, t);
    assert OpenFunction(s, index, names)
        == Sent(if flushed.frames == [] then t else MarkSeen(flushed.state, index), [block] + flushed.frames);
  }

  lemma EndStays(p: Page, s: AnthropicState)
    requires Placed(p, s)
    ensures Stays(p, EndFunction(s)) && !EndFunction(s).state.functions.active
  {
    hide CloseBlock, PlaceAll;
    CloseStays(p, s);
  }

  lemma {:induction false} PumpStays(p: Page, s: AnthropicState, names: Names)
    requires Placed(p, s)
    ensures Stays(p, Pump(s, names))
    decreases |s.functions.pending.Keys|
  {
    hide PlaceAll, Placed, OpenFunction, EndFunction;
    if s.functions.active || |s.functions.pending.Keys| == 0 {
      Nothing(p, s);
    } else {
      var next := Least(s.functions.pending.Keys);
      var started := OpenFunction(s, next, names);
      OpenStays(p, s, next, names);
      if next in started.state.functions.pendingDone {
        var q := PlaceAll(p, started.frames).value;
        MovedFunctions(q, started.state, ForgetDone(started.state, next));
        var ended := EndFunction(ForgetDone(started.state, next));
        EndStays(q, ForgetDone(started.state, next));
        ThenPlaced(p, started.frames, ended);
        PendingShrinks(s, next, names);
        PumpStays(PlaceAll(p, started.frames + ended.frames).value, ended.state, names);
        ThenPlaced(p, started.frames + ended.frames, Pump(ended.state, names));
      }
    }
  }

  lemma DoneStays(p: Page, s: AnthropicState, index: int, names: Names)
    requires Placed(p, s)
    ensures Stays(p, FunctionDone(s, index, names))
  {
    hide PlaceAll, Placed, Flush, EndFunction, Pump;
    var t := MarkDone(s, index);
    MovedFunctions(p, s, t);
    if t.functions.active && t.functions.activeOutput == index {
      var flushed := Flush(t, index);
      FlushStays(p, t);
      var q := PlaceAll(p, flushed.frames).value;
      MovedFunctions(q, flushed.state, ForgetDone(flushed.state, index));
      var ended := EndFunction(ForgetDone(flushed.state, index));
      EndStays(q, ForgetDone(flushed.state, index));
      ThenPlaced(p, flushed.frames, ended);
      PumpStays(PlaceAll(p, flushed.frames + ended.frames).value, ended.state, names);
      ThenPlaced(p, flushed.frames + ended.frames, Pump(ended.state, names));
    } else {
      Nothing(p, t);
    }
  }

  lemma PumpedStays(p: Page, sent: Sent, names: Names)
    requires Stays(p, sent)
    ensures Stays(p, Following(sent.frames, Pump(sent.state, names)))
  {
    hide PlaceAll, Placed, Pump;
    PumpStays(PlaceAll(p, sent.frames).value, sent.state, names);
    ThenPlaced(p, sent.frames, Pump(sent.state, names));
  }

  /** Announcing a tool and offering its arguments moves nothing. */
  lemma OfferedStays(p: Page, s: AnthropicState, index: int, item: CallItem)
    requires Placed(p, s)
    ensures var t := AddPending(s, index, item);
            && Placed(p, s) && Placed(p, t) && Placed(p, OfferArguments(s, index, item.arguments))
            && Placed(p, OfferArguments(t, index, item.arguments))
  {
    hide Placed;
    var t := AddPending(s, index, item);
    MovedFunctions(p, s, t);
    MovedFunctions(p, s, OfferArguments(s, index, item.arguments));
    MovedFunctions(p, t, OfferArguments(t, index, item.arguments));
  }

  lemma ItemStays(p: Page, s: AnthropicState, index: int, item: Item, names: Names)
    requires Placed(p, s)
    ensures Stays(p, ItemFinished(s, index, item, names))
  {
    hide PlaceAll, Placed, Stays, SendText, FunctionDone, Pump, MessageText, AddPending, OfferArguments;
    match item {
      case Reasoning(_, _, signature) =>
        Nothing(p, s);
        if s.cursor.kind == ThinkingType { PieceStays(p, s, SignaturePiece(s.cursor.index, signature)); }
      case Message(_, content) =>
        Nothing(p, s);
        SpeechStays(p, s, MessageText(content));
      case FunctionCall(_, _, _, arguments) =>
        var t := if index in s.functions.blocks then s else AddPending(s, index, item);
        var u := if arguments != "" then OfferArguments(t, index, arguments) else t;
        OfferedStays(p, s, index, item);
        DoneStays(p, u, index, names);
        PumpedStays(p, FunctionDone(u, index, names), names);
      case OtherItem => Nothing(p, s);
    }
  }

  lemma ExtendStays(p: Page, s: AnthropicState, index: int, delta: string)
    requires Placed(p, s)
    ensures Stays(p, ExtendArguments(s, index, delta))
  {
    hide PlaceAll, Placed;
    var sent := ExtendArguments(s, index, delta);
    MovedFunctions(p, s, sent.state);
    if sent.frames == [] {
      Nothing(p, sent.state);
    } else {
      InputStays(p, sent.state, delta);
    }
  }

  /** Any event but the opening one and the terminal one, in any order. */
  lemma EventStays(p: Page, s: AnthropicState, b: Body, model: string, names: Names)
    requires Placed(p, s) && !b.Created? && !IsTerminal(b)
    ensures Stays(p, AnthropicStream(s, b, model, names))
  {
    hide PlaceAll, Placed, Stays, SendText, SendThinking, Pump, ExtendArguments, FunctionDone, ItemFinished;
    match b {
      case ReasoningDelta(delta) => SpeechStays(p, s, delta);
      case TextDelta(delta) => SpeechStays(p, s, delta);
      case RefusalDelta(delta) => SpeechStays(p, s, delta);
      case ItemAdded(index, item) =>
        Nothing(p, s);
        if item.FunctionCall? {
          MovedFunctions(p, s, AddPending(s, index, item));
          PumpStays(p, AddPending(s, index, item), names);
        }
      case ArgumentsDelta(callId, _, index, delta) =>
        Nothing(p, s);
        var found := FunctionOutputIndex(s.functions, callId, index);
        if found.Some? { ExtendStays(p, s, found.value, delta); }
      case ArgumentsDone(callId, _, index, arguments) =>
        Nothing(p, s);
        var found := FunctionOutputIndex(s.functions, callId, index);
        if found.Some? {
          MovedFunctions(p, s, OfferArguments(s, found.value, arguments));
          DoneStays(p, OfferArguments(s, found.value, arguments), found.value, names);
        }
      case ItemDone(_, index, item) => ItemStays(p, s, index, item, names);
      case OtherEvent => Nothing(p, s);
    }
  }

  // ----- Both ends of a message -----

  /** All blocks are stopped and the message is over. */
  ghost predicate Complete(p: Page) {
    p.begun && p.ended == 2 && !p.started && p.index >= 0 && forall i :: i in p.kinds <==> 0 <= i < p.index
  }

  lemma TerminateCompletes(p: Page, s: AnthropicState, r: Response, names: Names)
    requires Placed(p, s)
    ensures PlaceAll(p, Terminate(s, r, names).frames).Some?
    ensures Complete(PlaceAll(p, Terminate(s, r, names).frames).value)
  {
    hide PlaceAll, Placed, Pump, EndFunction, CloseBlock, AnthropicStopReason;
    var pumped := Pump(s, names);
    PumpStays(p, s, names);
    var q := PlaceAll(p, pumped.frames).value;
    var ended := if pumped.state.functions.active then EndFunction(pumped.state) else Sent(pumped.state, []);
    Nothing(q, pumped.state);
    EndStays(q, pumped.state);
    ThenPlaced(p, pumped.frames, ended);
    var closed := CloseBlock(ended.state);
    CloseStays(PlaceAll(p, pumped.frames + ended.frames).value, ended.state);
    ThenPlaced(p, pumped.frames + ended.frames, closed);
    var all := pumped.frames + ended.frames + closed.frames;
    var last := [MessageDelta(AnthropicStopReason(r, pumped.state.hasClientTool), r.stopSequence, UsageFor(r)),
                 MessageStop];
    EndCompletes(PlaceAll(p, all).value, closed.state, last);
    PlaceAppend(p, all, last);
    assert Terminate(s, r, names).frames == all + last;
  }

  lemma EndCompletes(p: Page, s: AnthropicState, last: seq<Frame>)
    requires Placed(p, s) && s.cursor.kind == NoBlock
    requires |last| == 2 && last[0].MessageDelta? && last[1] == MessageStop
    ensures PlaceAll(p, last).Some? && Complete(PlaceAll(p, last).value)
  {
    PlaceOne(p, last[0]);
    assert last[..1] == [last[0]];
  }

  lemma BeginPlaces(b: Body, model: string, names: Names)
    requires b.Created?
    ensures Stays(BLANK_PAGE, AnthropicStream(INITIAL, b, model, names))
  {
    hide PlaceAll;
    var sent := AnthropicStream(INITIAL, b, model, names);
    OnePlaced(BLANK_PAGE, sent.state, sent.frames[0]);
  }

  // ----- Main results -----

  /** The stream opens with its first event, and only its last one is terminal. */
  predicate OpensFirst(bodies: seq<Body>) {
    bodies != [] && bodies[0].Created? && forall i :: 0 < i < |bodies| ==> !bodies[i].Created?
  }

  function Opening(b: Body, model: string): Frame
    requires b.Created?
  {
    MessageStart(b.id, if b.model != "" then b.model else model)
  }

  /** Frames that stand where they may, from the opening of the message to its end. */
  ghost predicate WellPlaced(frames: seq<Frame>, bodies: seq<Body>, model: string) {
    && bodies != [] && bodies[0].Created? && frames != [] && frames[0] == Opening(bodies[0], model)
    && PlaceAll(BLANK_PAGE, frames).Some? && Complete(PlaceAll(BLANK_PAGE, frames).value)
  }

  lemma {:induction false} PrefixPlaced(model: string, bodies: seq<Body>, names: Names)
    requires OpensFirst(bodies) && forall i :: 0 <= i < |bodies| ==> !IsTerminal(bodies[i])
    ensures Stays(BLANK_PAGE, AnthropicBrackets.Transcript(model, bodies, names))
    ensures var frames := AnthropicBrackets.Transcript(model, bodies, names).frames;
            frames != [] && frames[0] == Opening(bodies[0], model)
  {
    hide Stays, Placed;
    var most, last := bodies[..|bodies| - 1], bodies[|bodies| - 1];
    if |bodies| == 1 {
      assert most == [];
      BeginPlaces(last, model, names);
      assert AnthropicBrackets.Transcript(model, most, names) == Sent(INITIAL, []);
      var sent := AnthropicStream(INITIAL, last, model, names);
      assert [] + sent.frames == sent.frames;
    } else {
      PrefixPlaced(model, most, names);
      var before := AnthropicBrackets.Transcript(model, most, names);
      StaysSays(BLANK_PAGE, before);
      EventStays(PlaceAll(BLANK_PAGE, before.frames).value, before.state, last, model, names);
      hide AnthropicStream;
      ThenPlaced(BLANK_PAGE, before.frames, AnthropicStream(before.state, last, model, names));
    }
  }

  lemma StaysSays(p: Page, sent: Sent)
    requires Stays(p, sent)
    ensures PlaceAll(p, sent.frames).Some? && Placed(PlaceAll(p, sent.frames).value, sent.state)
  {
  }

  /**
   In every conforming stream, disturbed or not, the message is started first, under the id and the model announced,
   and stopped last; the blocks are started and stopped at 0, 1, 2, ... without a gap; and every piece goes to an index
   at which a block of its own kind was the last one started.
   */
  lemma StreamIsPlaced(model: string, bodies: seq<Body>, names: Names)
    requires Conforms(bodies)
    ensures WellPlaced(AnthropicBrackets.Transcript(model, bodies, names).frames, bodies, model)
  {
    hide Feed, Complete, Placed, Place, Rendered;
    PrefixFramed(bodies);
    var most, last := bodies[..|bodies| - 1], bodies[|bodies| - 1];
    PrefixPlaced(model, most, names);
    var before := AnthropicBrackets.Transcript(model, most, names);
    hide AnthropicBrackets.Transcript, PlaceAll, Terminate;
    TerminateCompletes(PlaceAll(BLANK_PAGE, before.frames).value, before.state, last.response.value, names);
    var sent := Terminate(before.state, last.response.value, names);
    PlaceAppend(BLANK_PAGE, before.frames, sent.frames);
    TranscriptEnds(model, bodies, names);
  }

  lemma TranscriptEnds(model: string, bodies: seq<Body>, names: Names)
    requires bodies != [] && CarriesResponse(bodies[|bodies| - 1])
    ensures var before := AnthropicBrackets.Transcript(model, bodies[..|bodies| - 1], names);
            var end := Terminate(before.state, bodies[|bodies| - 1].response.value, names);
            AnthropicBrackets.Transcript(model, bodies, names).frames == before.frames + end.frames
  {
    hide Terminate;
  }

  /** And so in every run that the mapper accepts. */
  lemma DevinRunsArePlaced(selected: string, given: string, limit: int, frames: seq<MapperSteps.Frame>,
        valid: MapperSteps.JsonTest, model: string, names: Names)
    requires MapperConformance.Run(MapperSteps.Initial(selected, given, limit), frames, valid).ok
    ensures var o := MapperConformance.Run(MapperSteps.Initial(selected, given, limit), frames, valid);
            WellPlaced(AnthropicBrackets.Transcript(model, Bodies(o.events), names).frames, Bodies(o.events), model)
  {
    hide MapperConformance.Run, Conforms, WellPlaced, AnthropicBrackets.Transcript;
    var o := MapperConformance.Run(MapperSteps.Initial(selected, given, limit), frames, valid);
    MapperConformance.RunConforms(selected, given, limit, frames, valid);
    StreamIsPlaced(model, Bodies(o.events), names);
  }
}
