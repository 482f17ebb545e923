/**
 Block bracketing: are content blocks opened and closed one at a time, with
 indexes 0, 1, 2, ...? The translator opens a tool block without closing the
 block before it, and keeps sending input to a tool block that speech has
 closed, so the answer is: exactly when no speech precedes the first tool or
 its input.
 */
module AnthropicBrackets {
  import opened Basics
  import opened CanonicalEvents
  import opened StreamProtocol
  import opened AnthropicSteps
  import opened AnthropicDelivery
  import MapperSteps
  import MapperConformance

  /** What a strict client tracks: the block that is open and the number of blocks so far closed. */
  datatype Bracket = Bracket(open: Option<int>, count: int)

  const OUTSIDE := Bracket(None, 0)

  function Watch(k: Bracket, f: Frame): Option<Bracket> {
    match f
    case BlockStart(index, _) => if k.open.None? && index == k.count then Some(k.(open := Some(index))) else None
    case BlockStop(index) => if k.open == Some(index) then Some(Bracket(None, k.count + 1)) else None
    case MessageStart(_, _) => if k == OUTSIDE then Some(k) else None
    case MessageDelta(_, _, _) => if k.open.None? then Some(k) else None
    case MessageStop => if k.open.None? then Some(k) else None
    case ThinkingPiece(index, _) => if k.open == Some(index) then Some(k) else None
    case SignaturePiece(index, _) => if k.open == Some(index) then Some(k) else None
    case TextPiece(index, _) => if k.open == Some(index) then Some(k) else None
    case JsonPiece(index, _) => if k.open == Some(index) then Some(k) else None
  }

  function WatchAll(k: Bracket, frames: seq<Frame>): Option<Bracket> {
    if frames == [] then Some(k)
    else
      var most := WatchAll(k, frames[..|frames| - 1]);
      if most.None? then None else Watch(most.value, frames[|frames| - 1])
  }

  /** All frames of a stream. */
  ghost function Transcript(model: string, bodies: seq<Body>, names: Names): Sent {
    if bodies == [] then Sent(INITIAL, [])
    else
      var most := Transcript(model, bodies[..|bodies| - 1], names);
      Following(most.frames, AnthropicStream(most.state, bodies[|bodies| - 1], model, names))
  }

  predicate IsSpeech(b: Body) {
    b.TextDelta? || b.ReasoningDelta?
  }

  predicate HasSpeech(bodies: seq<Body>) {
    exists i :: 0 <= i < |bodies| && IsSpeech(bodies[i])
  }

  /** The output index of the first tool announced. */
  function FirstTool(bodies: seq<Body>): Option<int> {
    if bodies == [] then None
    else
      var sofar := FirstTool(bodies[..|bodies| - 1]);
      if sofar.None? && AddsTool(bodies[|bodies| - 1]) then Some(bodies[|bodies| - 1].outputIndex) else sofar
  }

  /** After speech, the first tool is announced or receives input. */
  predicate Disturbs(before: seq<Body>, b: Body) {
    HasSpeech(before)
    && ((AddsTool(b) && FirstTool(before).None?)
        || (b.ArgumentsDelta? && b.index.Some? && b.index == FirstTool(before)))
  }

  predicate Undisturbed(bodies: seq<Body>) {
    forall j :: 0 <= j < |bodies| ==> !Disturbs(bodies[..j], bodies[j])
  }

  lemma {:induction false} WatchAppend(k: Bracket, xs: seq<Frame>, ys: seq<Frame>)
    ensures WatchAll(k, xs + ys) == if WatchAll(k, xs).None? then None else WatchAll(WatchAll(k, xs).value, ys)
  {
    hide Watch;
    if ys == [] {
      assert xs + ys == xs;
    } else {
      WatchAppend(k, xs, ys[..|ys| - 1]);
      assert (xs + ys)[..|xs + ys| - 1] == xs + ys[..|ys| - 1];
    }
  }

  lemma WatchOne(k: Bracket, f: Frame)
    ensures WatchAll(k, [f]) == Watch(k, f) && WatchAll(k, []) == Some(k)
  {
    assert [f][..0] == [];
    assert WatchAll(k, [f][..0]) == Some(k);
  }

  // ----- The invariant -----

  /** The strict client and the translator have the same block open. */
  predicate Aligned(k: Bracket, c: Cursor) {
    k == Bracket(if c.kind == NoBlock then None else Some(c.index), c.index)
  }

  predicate Said(l: Log) {
    l.text != "" || l.thinking != ""
  }

  /** Until tools are closed: the open block is a speech block if anything has been said, or else the first tool's. */
  ghost predicate FirstBlock(s: AnthropicState, ps: seq<nat>, closed: nat, said: bool) {
    if |ps| == 0 then s.cursor.kind != NoBlock <==> said
    else closed == 0 ==>
      && ps[0] in s.functions.blocks
      && if said then s.functions.blocks[ps[0]] < s.cursor.index
         else s.cursor == Cursor(s.functions.blocks[ps[0]], ToolType)
  }

  ghost predicate Watching(x: Session, k: Bracket, l: Log, names: Names) {
    && InStep(x, l, names) && Aligned(k, x.state.cursor)
    && (l.final.None? ==> FirstBlock(x.state, ToolPositions(l.items), l.argsClosed, Said(l)))
    && (!l.started ==> k == OUTSIDE)
  }

  ghost predicate DisturbsLog(l: Log, b: Body) {
    && Said(l)
    && ((AddsTool(b) && ToolCount(l) == 0)
        || (b.ArgumentsDelta? && b.index.Some? && ToolCount(l) > 0 && b.index.value == ToolPositions(l.items)[0]))
  }

  // ----- Sub-steps -----

  predicate IsPiece(f: Frame, index: int) {
    (f.ThinkingPiece? || f.SignaturePiece? || f.TextPiece? || f.JsonPiece?) && f.index == index
  }

  lemma WatchClose(k: Bracket, s: AnthropicState)
    requires Aligned(k, s.cursor)
    ensures var closed := CloseBlock(s);
            WatchAll(k, closed.frames).Some? && Aligned(WatchAll(k, closed.frames).value, closed.state.cursor)
            && closed.state.cursor.kind == NoBlock && closed.state == s.(cursor := closed.state.cursor)
  {
    WatchOne(k, BlockStop(s.cursor.index));
  }

  /** Between blocks, a block can be opened and receive a piece. */
  lemma WatchOpen(k: Bracket, index: int, kind: BlockType, block: Block, piece: Frame)
    requires k == Bracket(None, index) && kind != NoBlock && IsPiece(piece, index)
    ensures WatchAll(k, [BlockStart(index, block), piece]) == Some(Bracket(Some(index), index))
  {
    var open := BlockStart(index, block);
    WatchOne(k, open);
    WatchOne(Bracket(Some(index), index), piece);
    WatchAppend(k, [open], [piece]);
    assert [open] + [piece] == [open, piece];
    hide WatchAll;
  }

  lemma WatchStart(k: Bracket, s: AnthropicState, kind: BlockType, block: Block, piece: Frame)
    requires Aligned(k, s.cursor) && kind != NoBlock && IsPiece(piece, Start(s, kind, block).state.cursor.index)
    ensures var start := Start(s, kind, block);
            WatchAll(k, start.frames + [piece]).Some?
              && Aligned(WatchAll(k, start.frames + [piece]).value, start.state.cursor)
  {
    hide WatchAll, CloseBlock;
    var start := Start(s, kind, block);
    if s.cursor.kind == kind {
      assert start.frames + [piece] == [piece];
      WatchOne(k, piece);
    } else {
      WatchClose(k, s);
      var closed := CloseBlock(s);
      var index := closed.state.cursor.index;
      WatchOpen(WatchAll(k, closed.frames).value, index, kind, block, piece);
      WatchAppend(k, closed.frames, [BlockStart(index, block), piece]);
      assert start.frames + [piece] == closed.frames + [BlockStart(index, block), piece];
    }
  }

  /** A tool block can be opened exactly when no block is open. */
  lemma WatchTool(k: Bracket, c: Cursor, id: string, name: string, arguments: string)
    requires Aligned(k, c)
    ensures var w := WatchAll(k, ToolFrames(c.index, id, name, arguments));
            if c.kind == NoBlock then w.Some? && Aligned(w.value, Cursor(c.index, ToolType)) else w.None?
  {
    var open, piece := BlockStart(c.index, ToolBlock(id, name)), JsonPiece(c.index, arguments);
    WatchOne(k, open);
    if arguments != "" {
      WatchAppend(k, [open], [piece]);
      if c.kind == NoBlock {
        WatchOne(Watch(k, open).value, piece);
      }
    } else {
      assert [open] + [] == [open];
    }
  }

  // ----- One event -----

  /** The strict client accepts the frames of an event, or rejects them when told so. */
  ghost predicate Watched(k: Bracket, sent: Sent, l: Log, fails: bool) {
    var w := WatchAll(k, sent.frames);
    if fails then w.None?
    else
      w.Some? && Aligned(w.value, sent.state.cursor)
      && (l.final.None? ==> FirstBlock(sent.state, ToolPositions(l.items), l.argsClosed, Said(l)))
  }

  lemma StartMoves(s: AnthropicState, ps: seq<nat>, closed: nat, said: bool, kind: BlockType, block: Block)
    requires FirstBlock(s, ps, closed, said) && kind != NoBlock && kind != ToolType && closed == 0
    ensures FirstBlock(Start(s, kind, block).state, ps, closed, true)
  {
  }

  lemma ThinkingWatched(x: Session, k: Bracket, l: Log, delta: string, model: string, names: Names)
    requires Watching(x, k, l, names) && GrowThinking(l, delta).Some?
    ensures Watched(k, AnthropicStream(x.state, ReasoningDelta(delta), model, names), GrowThinking(l, delta).value,
                    false)
  {
    hide Start, InStep, FirstBlock, ToolPositions, WatchAll, Aligned, Pump, FunctionDone, ItemFinished, Terminate,
         AddPending, ExtendArguments, OfferArguments;
    PositionsAppend(l.items, ThinkingDraft);
    StartMoves(x.state, ToolPositions(l.items), l.argsClosed, Said(l), ThinkingType, ThinkingBlock);
    WatchStart(k, x.state, ThinkingType, ThinkingBlock,
               ThinkingPiece(Start(x.state, ThinkingType, ThinkingBlock).state.cursor.index, delta));
  }

  lemma SeenIgnored(s: AnthropicState, ps: seq<nat>, closed: nat, said: bool)
    ensures FirstBlock(s.(textSeen := true), ps, closed, said) == FirstBlock(s, ps, closed, said)
  {
  }

  lemma TextWatched(x: Session, k: Bracket, l: Log, delta: string, model: string, names: Names)
    requires Watching(x, k, l, names) && GrowText(l, delta).Some?
    ensures Watched(k, AnthropicStream(x.state, TextDelta(delta), model, names), GrowText(l, delta).value, false)
  {
    hide Start, InStep, FirstBlock, ToolPositions, WatchAll, Aligned, Pump, FunctionDone, ItemFinished, Terminate,
         AddPending, ExtendArguments, OfferArguments;
    PositionsAppend(l.items, TextDraft);
    var s := x.state.(textSeen := true);
    SeenIgnored(x.state, ToolPositions(l.items), l.argsClosed, Said(l));
    StartMoves(s, ToolPositions(l.items), l.argsClosed, Said(l), TextType, TextBlock);
    WatchStart(k, s, TextType, TextBlock, TextPiece(Start(s, TextType, TextBlock).state.cursor.index, delta));
  }

  /** The first tool is opened on top of whatever block is open. */
  lemma FirstPumps(x: Session, k: Bracket, p: nat, d: Draft, said: bool, names: Names)
    requires Serves(x, [], [], 0, 0, names) && !x.state.functions.active && d.ToolDraft? && d.id != ""
    requires d.arguments == ""
    requires Aligned(k, x.state.cursor) && FirstBlock(x.state, [], 0, said)
    ensures var sent := Pump(AddPending(x.state, p, FunctionCall(d.id, d.id, d.name, "")), names);
            var w := WatchAll(k, sent.frames);
            if said then w.None?
            else w.Some? && Aligned(w.value, sent.state.cursor) && FirstBlock(sent.state, [p], 0, said)
  {
    hide Pump, Serves, OpenFunction, ToolFrames, WatchAll;
    AddServes(x, [], [], 0, 0, p, d, names);
    assert [] + [p] == [p] && [] + [d] == [d];
    var y := x.(state := AddPending(x.state, p, FunctionCall(d.id, d.id, d.name, "")));
    assert y.state.cursor == x.state.cursor && !y.state.functions.active;
    hide AddPending;
    ServesTools(y, [p], [d], 0, 0, names);
    PumpOpens(y, [p], [d], 0, 0, names);
    OpenSays(y.state, p, names);
    var item := y.state.functions.pending[p];
    WatchTool(k, y.state.cursor, CallIdOf(item), ClientName(names, item.name),
              PendingArgumentsOf(y.state.functions, p));
  }

  lemma ServesTools(x: Session, ps: seq<nat>, tools: seq<Draft>, m: nat, c: nat, names: Names)
    requires Serves(x, ps, tools, m, c, names)
    ensures AreTools(ps, tools) && m <= |ps|
  {
  }

  lemma LaterPumps(x: Session, k: Bracket, ps: seq<nat>, tools: seq<Draft>, p: nat, d: Draft, said: bool, names: Names)
    requires Serves(x, ps, tools, 1, 0, names) && x.state.functions.active && |ps| > 0
    requires d.ToolDraft? && d.id != "" && d.arguments == "" && forall k :: 0 <= k < |ps| ==> ps[k] < p
    requires Aligned(k, x.state.cursor) && FirstBlock(x.state, ps, 0, said)
    ensures var sent := Pump(AddPending(x.state, p, FunctionCall(d.id, d.id, d.name, "")), names);
            sent.frames == [] && Aligned(k, sent.state.cursor) && FirstBlock(sent.state, ps + [p], 0, said)
  {
    AddServes(x, ps, tools, 1, 0, p, d, names);
    var y := x.(state := AddPending(x.state, p, FunctionCall(d.id, d.id, d.name, "")));
    assert y.state.functions.active;
    hide Serves;
    PumpIdle(y, ps + [p], tools + [d], 1, 0, names);
    hide Pump;
  }

  lemma AddWatched(x: Session, k: Bracket, l: Log, index: int, item: Item, model: string, names: Names)
    requires Watching(x, k, l, names) && GrowTools(l, index, item).Some?
    ensures Watched(k, AnthropicStream(x.state, ItemAdded(index, item), model, names), GrowTools(l, index, item).value,
                    DisturbsLog(l, ItemAdded(index, item)))
  {
    hide FirstBlock, ToolPositions, ToolDrafts, WatchAll, Aligned, Pump, AddPending, AnthropicStream, GrowTools, Serves,
         HearAll;
    AddIsPump(x.state, l, index, item, model, names);
    var d := ToolDraft(item.id, item.name, "");
    PositionsAppend(l.items, d);
    var ps, tools := ToolPositions(l.items), ToolDrafts(l.items);
    if |ps| == 0 {
      assert ps == [] && tools == [] && ps + [index] == [index];
      FirstPumps(x, k, index, d, Said(l), names);
    } else {
      LaterPumps(x, k, ps, tools, index, d, Said(l), names);
      WatchNone(k);
    }
  }

  lemma WatchNone(k: Bracket)
    ensures WatchAll(k, []) == Some(k)
  {
  }

  lemma ExtendWatches(s: AnthropicState, k: Bracket, ps: seq<nat>, p: int, delta: string, said: bool)
    requires Aligned(k, s.cursor) && |ps| > 0 && FirstBlock(s, ps, 0, said) && s.functions.active
    requires s.functions.activeOutput == ps[0]
    ensures var sent := ExtendArguments(s, p, delta);
            var w := WatchAll(k, sent.frames);
            if said && p == ps[0] then w.None?
            else w.Some? && Aligned(w.value, sent.state.cursor) && FirstBlock(sent.state, ps, 0, said)
  {
    WatchOne(k, JsonPiece(BlockOf(s.functions, p), delta));
    hide WatchAll;
  }

  lemma GrowWatched(x: Session, k: Bracket, l: Log, id: string, index: Option<int>, delta: string, model: string,
        names: Names)
    requires Watching(x, k, l, names) && GrowArguments(l, id, index, delta).Some?
    ensures Watched(k, AnthropicStream(x.state, ArgumentsDelta("", id, index, delta), model, names),
                    GrowArguments(l, id, index, delta).value,
                    DisturbsLog(l, ArgumentsDelta("", id, index, delta)))
  {
    hide FirstBlock, ToolPositions, ToolDrafts, WatchAll, Aligned, Pump, FunctionDone, ItemFinished, Terminate,
         AddPending, ExtendArguments, OfferArguments, StartedHeard, RestPending;
    var ps := ToolPositions(l.items);
    var d := l.items[index.value];
    PositionsKept(l.items, index.value, d.(arguments := d.arguments + delta));
    assert index.value in ps;
    ExtendWatches(x.state, k, ps, index.value, delta, Said(l));
  }

  /** Once tools are being closed the first block no longer matters. */
  lemma CloseArgumentsWatched(x: Session, k: Bracket, l: Log, id: string, index: Option<int>, arguments: string,
        model: string, names: Names)
    requires Watching(x, k, l, names) && Consistent(l) && ClosesArguments(l, id, index, arguments)
    ensures Watched(k, AnthropicStream(x.state, ArgumentsDone("", id, index, arguments), model, names),
                    l.(argsClosed := l.argsClosed + 1), false)
  {
    hide ToolPositions, ToolDrafts, WatchAll, Aligned, Pump, FunctionDone, ItemFinished, Terminate, AddPending,
         ExtendArguments, OfferArguments, Consistent, Serves;
    ToolsAre(l);
    CloseWatched(x, k, ToolPositions(l.items), ToolDrafts(l.items), l.argsClosed, arguments, names);
  }

  lemma CloseWatched(x: Session, k: Bracket, ps: seq<nat>, tools: seq<Draft>, c: nat, arguments: string, names: Names)
    requires Serves(x, ps, tools, c + 1, c, names) && x.state.functions.active && Aligned(k, x.state.cursor)
    requires c < |tools| && tools[c].ToolDraft? && tools[c].arguments != ""
    ensures var sent := FunctionDone(OfferArguments(x.state, ps[c], arguments), ps[c], names);
            var w := WatchAll(k, sent.frames);
            w.Some? && Aligned(w.value, sent.state.cursor)
  {
    hide Serves, FunctionDone, OfferArguments, Pump, WatchAll, Aligned;
    ServesTools(x, ps, tools, c + 1, c, names);
    DoneIsEnd(x, ps, tools, c, arguments, names);
    EndServes(x, ps, tools, c + 1, c, names);
    var ended := EndFunction(x.state);
    WatchEnd(k, x.state);
    var y, k1 := Session(ended.state, x.heard), WatchAll(k, ended.frames).value;
    hide EndFunction;
    DoneMore(y, ps, tools, c + 1, c, names);
    WatchAppend(k, ended.frames, Pump(ended.state, names).frames);
    if c + 1 < |ps| {
      PumpOpens(y, ps, tools, c + 1, c + 1, names);
      OpenSays(y.state, ps[c + 1], names);
      hide OpenFunction, ToolFrames;
      var item := y.state.functions.pending[ps[c + 1]];
      WatchTool(k1, y.state.cursor, CallIdOf(item), ClientName(names, item.name),
                PendingArgumentsOf(y.state.functions, ps[c + 1]));
    } else {
      PumpIdle(y, ps, tools, c + 1, c + 1, names);
      WatchOne(k1, MessageStop);
    }
  }

  lemma WatchEnd(k: Bracket, s: AnthropicState)
    requires Aligned(k, s.cursor)
    ensures var ended := EndFunction(s);
            WatchAll(k, ended.frames).Some? && Aligned(WatchAll(k, ended.frames).value, ended.state.cursor)
              && ended.state.cursor.kind == NoBlock
  {
    WatchClose(k, s);
    hide WatchAll, CloseBlock, Aligned;
  }

  lemma ItemWatched(x: Session, k: Bracket, l: Log, index: int, item: Item, names: Names)
    requires Watching(x, k, l, names) && Consistent(l) && CloseItem(l, index, item).Some?
    ensures Watched(k, ItemFinished(x.state, index, item, names), CloseItem(l, index, item).value, false)
  {
    hide ToolPositions, ToolDrafts, WatchAll, FunctionDone, Pump, AddPending, OfferArguments, ToolsDistinct,
         ClosingConsistent, InStep, SendText;
    WatchOne(k, SignaturePiece(x.state.cursor.index, if item.Reasoning? then item.encrypted else ""));
    match item {
      case Reasoning(_, _, _) =>
      case Message(_, _) => TextSeen(x, l, names);
      case FunctionCall(_, _, _, _) =>
        hide ItemFinished;
        ToolItemWatched(x, l, index, item, names);
      case OtherItem =>
    }
  }

  lemma TextSeen(x: Session, l: Log, names: Names)
    requires InStep(x, l, names)
    ensures x.state.textSeen <==> l.text != ""
  {
  }

  lemma ToolItemWatched(x: Session, l: Log, index: int, item: Item, names: Names)
    requires InStep(x, l, names) && Consistent(l) && item.FunctionCall? && CloseItem(l, index, item).Some?
    ensures var sent := ItemFinished(x.state, index, item, names);
            sent.frames == [] && sent.state.cursor == x.state.cursor && ToolCount(l) > 0 && l.argsClosed > 0
  {
    hide ToolPositions, ToolDrafts, Serves, ItemFinished, Consistent, Render, Pump;
    ToolsAre(l);
    var ps, tools := ToolPositions(l.items), ToolDrafts(l.items);
    var m, c := StartedTools(|ps|, l.argsClosed), l.argsClosed;
    StartedMarks(x, ps, tools, m, c, l.itemsClosed, names);
    ItemIsMark(x.state, index, item, names);
    MarkServes(x, ps, tools, m, c, l.itemsClosed, names);
    PumpIdle(x.(state := MarkDone(x.state, index)), ps, tools, m, c, names);
  }

  lemma EndWatched(x: Session, k: Bracket, l: Log, r: Response, names: Names)
    requires Watching(x, k, l, names) && Conclude(l, Some(r)).Some?
    ensures Watched(k, Terminate(x.state, r, names), Conclude(l, Some(r)).value, false)
  {
    hide ToolPositions, ToolDrafts, Serves, Pump, AnthropicStopReason, UsageFor, WatchAll, Rendered, Aligned,
         CloseBlock;
    var n := ToolCount(l);
    PumpIdle(x, ToolPositions(l.items), ToolDrafts(l.items), n, n, names);
    WatchClose(k, x.state);
    var closed := CloseBlock(x.state);
    var k1 := WatchAll(k, closed.frames).value;
    var end := MessageDelta(AnthropicStopReason(r, x.state.hasClientTool), r.stopSequence, UsageFor(r));
    WatchOne(k1, end);
    WatchOne(k1, MessageStop);
    WatchAppend(k1, [end], [MessageStop]);
    assert [end] + [MessageStop] == [end, MessageStop];
    assert [] + [] + closed.frames == closed.frames;
    WatchAppend(k, closed.frames, [end, MessageStop]);
    AlignedClosed(k1, closed.state.cursor);
  }

  lemma AlignedClosed(k: Bracket, c: Cursor)
    requires Aligned(k, c) && c.kind == NoBlock
    ensures k.open.None?
  {
  }

  lemma CreatedWatched(x: Session, k: Bracket, l: Log, b: Body, model: string, names: Names)
    requires Watching(x, k, l, names) && b.Created? && Advance(l, b).Some?
    ensures Watched(k, AnthropicStream(x.state, b, model, names), Advance(l, b).value, false)
  {
    hide ToolPositions, InStep, WatchAll;
    WatchOne(k, MessageStart(b.id, if b.model != "" then b.model else model));
  }

  lemma StepWatched(x: Session, k: Bracket, l: Log, b: Body, model: string, names: Names)
    requires Watching(x, k, l, names) && Consistent(l) && Advance(l, b).Some?
    ensures Watched(k, AnthropicStream(x.state, b, model, names), Advance(l, b).value, DisturbsLog(l, b))
  {
    hide ToolPositions, GrowThinking, GrowText, GrowTools, GrowArguments, ClosesArguments, CloseItem, Conclude,
         Consistent, Watching, Watched, Pump, FunctionDone, ItemFinished, Terminate;
    match b {
      case Created(_, _) => CreatedWatched(x, k, l, b, model, names);
      case ReasoningDelta(delta) => ThinkingWatched(x, k, l, delta, model, names);
      case TextDelta(delta) => TextWatched(x, k, l, delta, model, names);
      case ItemAdded(index, item) =>
        if AddsTool(b) {
          AddWatched(x, k, l, index, item, model, names);
        } else {
          PassedWatched(x, k, l, b, model, names);
        }
      case ArgumentsDelta(_, id, index, delta) => GrowWatched(x, k, l, id, index, delta, model, names);
      case ArgumentsDone(_, id, index, arguments) => CloseArgumentsWatched(x, k, l, id, index, arguments, model, names);
      case ItemDone(_, index, item) =>
        if FinishesItem(b) {
          ItemWatched(x, k, l, index, item, names);
        } else {
          PassedWatched(x, k, l, b, model, names);
        }
      case OtherEvent => PassedWatched(x, k, l, b, model, names);
      case Completed(r) => ConcludeNeedsResponse(l, r); EndWatched(x, k, l, r.value, names);
      case Incomplete(r) => ConcludeNeedsResponse(l, r); EndWatched(x, k, l, r.value, names);
      case _ =>
    }
  }

  lemma PassedWatched(x: Session, k: Bracket, l: Log, b: Body, model: string, names: Names)
    requires Watching(x, k, l, names) && Live(l)
    requires b.OtherEvent? || (b.ItemAdded? && !AddsTool(b)) || (b.ItemDone? && !FinishesItem(b))
    ensures Watched(k, AnthropicStream(x.state, b, model, names), l, false)
  {
    hide FirstBlock, ToolPositions, InStep, Aligned, Pump, HearAll;
    WatchNone(k);
    hide WatchAll;
  }

  lemma ConcludeNeedsResponse(l: Log, response: Option<Response>)
    ensures Conclude(l, response).Some? ==> response.Some?
  {
    hide Rendered;
  }

  // ----- From the log back to the events -----

  /** The log and the events agree on what has been said and which tool came first. */
  ghost predicate Remembers(l: Log, bodies: seq<Body>) {
    && (Said(l) <==> HasSpeech(bodies))
    && FirstTool(bodies) == if ToolCount(l) == 0 then None else Some(ToolPositions(l.items)[0])
  }

  lemma HasSpeechMore(bodies: seq<Body>)
    requires bodies != []
    ensures HasSpeech(bodies) <==> HasSpeech(bodies[..|bodies| - 1]) || IsSpeech(bodies[|bodies| - 1])
  {
    var most := bodies[..|bodies| - 1];
    if HasSpeech(most) {
      var i :| 0 <= i < |most| && IsSpeech(most[i]);
      assert IsSpeech(bodies[i]);
    }
    if HasSpeech(bodies) {
      var i :| 0 <= i < |bodies| && IsSpeech(bodies[i]);
      if i < |most| {
        assert IsSpeech(most[i]);
      }
    }
  }

  lemma AdvanceRemembers(l: Log, b: Body)
    requires Advance(l, b).Some?
    ensures var n := Advance(l, b).value;
            && (Said(n) <==> Said(l) || IsSpeech(b))
            && (if AddsTool(b) then ToolPositions(n.items) == ToolPositions(l.items) + [b.outputIndex]
                else ToolPositions(n.items) == ToolPositions(l.items))
  {
    hide ToolPositions, HasTool, ClosesArguments, CloseItem, Conclude;
    match b {
      case ReasoningDelta(_) => PositionsAppend(l.items, ThinkingDraft);
      case TextDelta(_) => PositionsAppend(l.items, TextDraft);
      case ItemAdded(_, item) => if AddsTool(b) { PositionsAppend(l.items, ToolDraft(item.id, item.name, "")); }
      case ArgumentsDelta(_, _, index, delta) =>
        var d := l.items[index.value];
        PositionsKept(l.items, index.value, d.(arguments := d.arguments + delta));
      case ItemDone(_, index, item) => if FinishesItem(b) { CloseItemKeeps(l, index, item); }
      case Completed(r) => ConcludeKeeps(l, r);
      case Incomplete(r) => ConcludeKeeps(l, r);
      case _ =>
    }
  }

  lemma CloseItemKeeps(l: Log, index: int, item: Item)
    requires CloseItem(l, index, item).Some?
    ensures var n := CloseItem(l, index, item).value;
            n.items == l.items && n.text == l.text && n.thinking == l.thinking
  {
    hide ToolPositions, Render;
  }

  lemma ConcludeKeeps(l: Log, r: Option<Response>)
    requires Conclude(l, r).Some?
    ensures var n := Conclude(l, r).value;
            n.items == l.items && n.text == l.text && n.thinking == l.thinking
  {
    hide ToolPositions, Rendered;
  }

  lemma {:induction false} FeedRemembers(bodies: seq<Body>)
    requires Feed(EMPTY_LOG, bodies).Some?
    ensures Remembers(Feed(EMPTY_LOG, bodies).value, bodies)
  {
    hide Advance, HasSpeech, ToolPositions;
    if bodies == [] {
      NothingSaid();
    } else {
      var most, last := bodies[..|bodies| - 1], bodies[|bodies| - 1];
      FeedRemembers(most);
      AdvanceRemembers(Feed(EMPTY_LOG, most).value, last);
      HasSpeechMore(bodies);
    }
  }

  lemma NothingSaid()
    ensures !HasSpeech([]) && ToolPositions([]) == []
  {
  }

  lemma UndisturbedMore(bodies: seq<Body>)
    requires bodies != []
    ensures var most := bodies[..|bodies| - 1];
            Undisturbed(bodies) <==> Undisturbed(most) && !Disturbs(most, bodies[|bodies| - 1])
  {
    hide Disturbs;
    var most := bodies[..|bodies| - 1];
    forall j | 0 <= j < |most| ensures most[..j] == bodies[..j] && most[j] == bodies[j] {}
    if Undisturbed(bodies) {
      assert !Disturbs(bodies[..|most|], bodies[|most|]);
    }
  }

  ghost predicate PrefixStory(x: Option<Session>, sent: Sent, l: Log, calm: bool, names: Names) {
    var w := WatchAll(OUTSIDE, sent.frames);
    && x.Some? && x.value.state == sent.state
    && if calm then w.Some? && Watching(x.value, w.value, l, names) else w.None?
  }

  lemma EmptyStory(model: string, names: Names)
    ensures PrefixStory(Converse(model, [], names), Transcript(model, [], names), EMPTY_LOG, true, names)
    ensures Undisturbed([])
  {
    EmptyInStep(names);
    WatchOne(OUTSIDE, MessageStop);
    hide InStep;
  }

  lemma NextStory(x: Session, frames: seq<Frame>, l: Log, calm: bool, b: Body, model: string, names: Names)
    requires InStep(x, l, names) && Consistent(l) && Advance(l, b).Some?
    requires PrefixStory(Some(x), Sent(x.state, frames), l, calm, names)
    ensures var sent := AnthropicStream(x.state, b, model, names);
            PrefixStory(Exchange(x, sent), Following(frames, sent), Advance(l, b).value, calm && !DisturbsLog(l, b),
                        names)
  {
    hide Advance, Consistent, InStep, AnthropicStream, WatchAll, Aligned, FirstBlock, DisturbsLog, ToolPositions,
         HearAll;
    var sent := AnthropicStream(x.state, b, model, names);
    StepInStep(x, l, b, model, names);
    WatchAppend(OUTSIDE, frames, sent.frames);
    if calm {
      StepWatched(x, WatchAll(OUTSIDE, frames).value, l, b, model, names);
      AdvanceStarts(l, b);
    }
  }

  lemma AdvanceStarts(l: Log, b: Body)
    requires Advance(l, b).Some?
    ensures Advance(l, b).value.started
  {
    hide ToolPositions, Rendered, HasTool;
  }

  lemma {:induction false} PrefixWatched(model: string, bodies: seq<Body>, names: Names)
    requires Feed(EMPTY_LOG, bodies).Some?
    ensures PrefixStory(Converse(model, bodies, names), Transcript(model, bodies, names), Feed(EMPTY_LOG, bodies).value,
                        Undisturbed(bodies), names)
  {
    hide Advance, Consistent, InStep, AnthropicStream, PrefixStory, Undisturbed, Exchange;
    if bodies == [] {
      EmptyStory(model, names);
    } else {
      var most, last := bodies[..|bodies| - 1], bodies[|bodies| - 1];
      var l := Feed(EMPTY_LOG, most).value;
      PrefixWatched(model, most, names);
      PrefixInStep(model, most, names);
      FeedConsistent(most);
      FeedRemembers(most);
      UndisturbedMore(bodies);
      assert Disturbs(most, last) <==> DisturbsLog(l, last) by { SameDisturbance(l, most, last); }
      var x := Converse(model, most, names).value;
      StoryState(x, Transcript(model, most, names), l, Undisturbed(most), names);
      NextStory(x, Transcript(model, most, names).frames, l, Undisturbed(most), last, model, names);
    }
  }

  lemma StoryState(x: Session, sent: Sent, l: Log, calm: bool, names: Names)
    requires PrefixStory(Some(x), sent, l, calm, names)
    ensures sent == Sent(x.state, sent.frames)
  {
  }

  lemma SameDisturbance(l: Log, most: seq<Body>, last: Body)
    requires Remembers(l, most)
    ensures Disturbs(most, last) <==> DisturbsLog(l, last)
  {
    hide HasSpeech, FirstTool, ToolPositions;
  }

  // ----- Main results -----

  /**
   Blocks are opened and closed one at a time with indexes 0, 1, 2, ..., around every piece, and none is left open.
   */
  ghost predicate Bracketed(frames: seq<Frame>) {
    var w := WatchAll(OUTSIDE, frames);
    w.Some? && w.value.open.None?
  }

  lemma LastFrame(s: AnthropicState, b: Body, model: string, names: Names)
    requires IsTerminal(b)
    ensures var frames := AnthropicStream(s, b, model, names).frames;
            frames != [] && frames[|frames| - 1] == MessageStop
  {
    hide Pump, EndFunction, CloseBlock, AnthropicStopReason;
  }

  /** Blocks are bracketed exactly when no text or thinking precedes the first tool or its input. */
  lemma BracketedExactlyWhenUndisturbed(model: string, bodies: seq<Body>, names: Names)
    requires Conforms(bodies)
    ensures Bracketed(Transcript(model, bodies, names).frames) <==> Undisturbed(bodies)
  {
    hide Advance, AnthropicStream, Watching, Undisturbed;
    PrefixWatched(model, bodies, names);
    var most, last := bodies[..|bodies| - 1], bodies[|bodies| - 1];
    LastConcludes(Feed(EMPTY_LOG, most).value, last, most);
    LastFrame(Transcript(model, most, names).state, last, model, names);
  }

  /** Tool-only and speech-only streams are always bracketed. */
  lemma PureStreamsBracketed(model: string, bodies: seq<Body>, names: Names)
    requires Conforms(bodies)
    requires !HasSpeech(bodies) || forall i :: 0 <= i < |bodies| ==> !AddsTool(bodies[i])
    ensures Bracketed(Transcript(model, bodies, names).frames)
  {
    hide Conforms, Bracketed;
    forall j | 0 <= j < |bodies| ensures !Disturbs(bodies[..j], bodies[j]) {
      if HasSpeech(bodies[..j]) {
        var i :| 0 <= i < j && IsSpeech(bodies[..j][i]);
        assert IsSpeech(bodies[i]);
        NoFirstTool(bodies[..j]);
      }
    }
    BracketedExactlyWhenUndisturbed(model, bodies, names);
  }

  lemma {:induction false} NoFirstTool(bodies: seq<Body>)
    requires forall i :: 0 <= i < |bodies| ==> !AddsTool(bodies[i])
    ensures FirstTool(bodies) == None
  {
    if bodies != [] {
      NoFirstTool(bodies[..|bodies| - 1]);
    }
  }

  /** The exact condition, for every run the Devin mapper accepts. */
  lemma DevinRunsBracketed(
      selected: string, id: string, limit: int, frames: seq<MapperSteps.Frame>, valid: MapperSteps.JsonTest,
      model: string, names: Names)
    requires MapperConformance.Run(MapperSteps.Initial(selected, id, limit), frames, valid).ok
    ensures var bodies := Bodies(MapperConformance.Run(MapperSteps.Initial(selected, id, limit), frames, valid).events);
            Bracketed(Transcript(model, bodies, names).frames) <==> Undisturbed(bodies)
  {
    hide MapperConformance.Run, Bracketed, Undisturbed, Transcript;
    MapperConformance.RunConforms(selected, id, limit, frames, valid);
    var o := MapperConformance.Run(MapperSteps.Initial(selected, id, limit), frames, valid);
    BracketedExactlyWhenUndisturbed(model, Bodies(o.events), names);
  }

  // ----- A run that is not bracketed -----

  const SPOKEN_CALL := MapperSteps.Frame("", "a", "", "", None, MapperSteps.StopUnspecified,
                                         [MapperSteps.Call("t", "f", "{}")], None)

  /** The events of one frame that says something and then calls a tool. */
  lemma SpokenCallEvents()
    ensures var o := MapperSteps.Push(MapperSteps.Initial("m", "r", 2), SPOKEN_CALL);
            && o.ok && |o.events| == 4 && o.events[0].body.Created? && o.events[1].body == TextDelta("a")
            && AddsTool(o.events[2].body) && !o.state.terminal && o.state.head.stop.StopUnspecified?
            && o.state.table.order == ["t"] && "t" in o.state.table.byId && o.state.table.byId["t"].arguments == "{}"
  {
    var s := MapperSteps.Initial("m", "r", 2);
    var start := MapperSteps.Begin(s, SPOKEN_CALL);
    var deltas := MapperSteps.PushDeltas(start.state, SPOKEN_CALL);
    assert start.events == [MapperSteps.Numbered(0, Created("r", "m"))];
    assert deltas.events == [MapperSteps.Numbered(1, TextDelta("a"))];
    var call := MapperSteps.Call("t", "f", "{}");
    var added := MapperSteps.AddTool(deltas.state, "t", "f");
    var filled := MapperSteps.AddArguments(added.state, "t", "{}");
    assert filled.ok && |filled.events| == 1;
    assert MapperSteps.PushTool(deltas.state, call) == MapperSteps.After(added.events, filled);
    assert [call][..0] == [];
    assert MapperSteps.PushTools(deltas.state, [call][..0]) == MapperSteps.Done(deltas.state, []);
    assert MapperSteps.PushTools(deltas.state, [call])
        == MapperSteps.After([], MapperSteps.PushTool(deltas.state, call));
  }

  lemma SpokenCallRuns(valid: MapperSteps.JsonTest)
    requires valid("{}")
    ensures var o := MapperConformance.Run(MapperSteps.Initial("m", "r", 2), [SPOKEN_CALL], valid);
            var pushed := MapperSteps.Push(MapperSteps.Initial("m", "r", 2), SPOKEN_CALL);
            o.ok && |o.events| >= 4 && forall i :: 0 <= i < 4 ==> o.events[i].body == pushed.events[i].body
  {
    hide MapperSteps.Push, MapperSteps.PrepareFinal, MapperSteps.FinalResponse;
    var s := MapperSteps.Initial("m", "r", 2);
    SpokenCallEvents();
    var pushed := MapperSteps.Push(s, SPOKEN_CALL);
    assert [SPOKEN_CALL][..0] == [];
    assert MapperConformance.PushAll(s, [SPOKEN_CALL][..0]) == MapperSteps.Done(s, []);
    assert MapperConformance.PushAll(s, [SPOKEN_CALL]) == MapperSteps.After([], pushed);
    assert [] + pushed.events == pushed.events;
    MapperConformance.PrepareKeepsTable(pushed.state);
    var prepared := MapperSteps.PrepareFinal(pushed.state);
    assert MapperSteps.CloseTools(prepared.state, 0, valid).ok;
    assert MapperSteps.CloseTools(prepared.state, 1, valid).ok;
  }

  /** A text before a tool call is enough to break bracketing. */
  lemma SpeechBreaksBrackets(valid: MapperSteps.JsonTest, model: string, names: Names)
    requires valid("{}")
    ensures var o := MapperConformance.Run(MapperSteps.Initial("m", "r", 2), [SPOKEN_CALL], valid);
            o.ok && !Bracketed(Transcript(model, Bodies(o.events), names).frames)
  {
    hide MapperConformance.Run, Bracketed, Transcript, MapperSteps.Push, HasSpeech;
    SpokenCallEvents();
    SpokenCallRuns(valid);
    DevinRunsBracketed("m", "r", 2, [SPOKEN_CALL], valid, model, names);
    var bodies := Bodies(MapperConformance.Run(MapperSteps.Initial("m", "r", 2), [SPOKEN_CALL], valid).events);
    TwoBodies(bodies);
    assert Disturbs(bodies[..2], bodies[2]);
  }

  lemma TwoBodies(bodies: seq<Body>)
    requires |bodies| >= 2 && !AddsTool(bodies[0]) && IsSpeech(bodies[1])
    ensures HasSpeech(bodies[..2]) && FirstTool(bodies[..2]) == None
  {
    assert IsSpeech(bodies[..2][1]);
    NoFirstTool(bodies[..2]);
  }
}
