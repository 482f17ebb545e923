/**
 The Anthropic Messages translator: a state machine that turns canonical events
 into content blocks, buffering every tool but the active one, and the answer
 computed from the terminal event alone.
 */
module AnthropicSteps {
  import opened Basics
  import opened CanonicalEvents

  type Names = map<string, string>

  datatype BlockType = NoBlock | ThinkingType | TextType | ToolType

  datatype Block = ThinkingBlock | TextBlock | ToolBlock(id: string, name: string)

  datatype MessageUsage = MessageUsage(input: int, output: int, cacheRead: Option<int>)

  datatype Frame =
    | MessageStart(id: string, model: string)
    | BlockStart(index: int, block: Block)
    | ThinkingPiece(index: int, text: string)
    | SignaturePiece(index: int, signature: string)
    | TextPiece(index: int, text: string)
    | JsonPiece(index: int, json: string)
    | BlockStop(index: int)
    | MessageDelta(stopReason: string, stopSequence: string, usage: MessageUsage)
    | MessageStop

  /** Only tool calls are ever pending. */
  type CallItem = item: Item | item.FunctionCall? witness FunctionCall("", "", "", "")

  datatype Cursor = Cursor(index: int, kind: BlockType)

  datatype Functions = Functions(
    byCallId: map<string, int>, blocks: map<int, int>, argumentsSeen: set<int>,
    pending: map<int, CallItem>, pendingArguments: map<int, string>, pendingDone: set<int>, active: bool,
        activeOutput: int)

  datatype AnthropicState = AnthropicState(cursor: Cursor, functions: Functions, hasClientTool: bool, started: bool,
        textSeen: bool)

  const INITIAL := AnthropicState(Cursor(0, NoBlock), Functions(map[], map[], {}, map[], map[], {}, false, 0), false,
                                  false, false)

  /** A step's resulting state and the frames it sends. */
  datatype Sent = Sent(state: AnthropicState, frames: seq<Frame>)

  function Following(earlier: seq<Frame>, next: Sent): Sent {
    next.(frames := earlier + next.frames)
  }

  function CloseBlock(s: AnthropicState): Sent {
    if s.cursor.kind == NoBlock then Sent(s, [])
    else Sent(s.(cursor := Cursor(s.cursor.index + 1, NoBlock)), [BlockStop(s.cursor.index)])
  }

  function Start(s: AnthropicState, kind: BlockType, block: Block): Sent {
    if s.cursor.kind == kind then Sent(s, [])
    else
      var closed := CloseBlock(s);
      Sent(closed.state.(cursor := Cursor(closed.state.cursor.index, kind)),
           closed.frames + [BlockStart(closed.state.cursor.index, block)])
  }

  function PendingArgumentsOf(f: Functions, index: int): string {
    if index in f.pendingArguments then f.pendingArguments[index] else ""
  }

  function BlockOf(f: Functions, index: int): int {
    if index in f.blocks then f.blocks[index] else 0
  }

  lemma LeastExists(keys: set<int>)
    requires |keys| > 0
    ensures exists k :: k in keys && forall j :: j in keys ==> k <= j
  {
    var k := Element(keys);
    var others := keys - {k};
    forall j | j in keys ensures j == k || j in others {}
    if others == {} {
      assert forall j :: j in keys ==> k <= j;
    } else {
      LeastExists(others);
      var m :| m in others && forall j :: j in others ==> m <= j;
      var least := Min(k, m);
      assert least in keys && forall j :: j in keys ==> least <= j;
    }
  }

  ghost function Least(keys: set<int>): (k: int)
    requires |keys| > 0
    ensures k in keys && forall j :: j in keys ==> k <= j
  {
    LeastExists(keys);
    var k :| k in keys && forall j :: j in keys ==> k <= j;
    k
  }

  function CallIdOf(item: CallItem): string {
    if item.callId == "" then item.id else item.callId
  }

  /** Sends what has been buffered for a tool. */
  function Flush(s: AnthropicState, index: int): Sent {
    var f := s.functions;
    var arguments := PendingArgumentsOf(f, index);
    if arguments == "" then Sent(s, [])
    else Sent(s.(functions := f.(pendingArguments := f.pendingArguments - {index})),
              [JsonPiece(BlockOf(f, index), arguments)])
  }

  function MarkSeen(s: AnthropicState, index: int): AnthropicState {
    s.(functions := s.functions.(argumentsSeen := s.functions.argumentsSeen + {index}))
  }

  /** Gives a pending tool its block, on top of whatever block is open. */
  function OpenFunction(s: AnthropicState, index: int, names: Names): Sent
    requires index in s.functions.pending
  {
    var f := s.functions;
    var item := f.pending[index];
    var open := s.(hasClientTool := true, cursor := Cursor(s.cursor.index, ToolType),
                   functions := f.(pending := f.pending - {index}, active := true, activeOutput := index,
                                   blocks := f.blocks[index := s.cursor.index]));
    var flushed := Flush(open, index);
    Sent(if flushed.frames == [] then open else MarkSeen(flushed.state, index),
         [BlockStart(s.cursor.index, ToolBlock(CallIdOf(item), ClientName(names, item.name)))] + flushed.frames)
  }

  /** The active tool is over: whichever block is open is closed. */
  function EndFunction(s: AnthropicState): Sent {
    var closed := CloseBlock(s);
    Sent(closed.state.(functions := closed.state.functions.(active := false)), closed.frames)
  }

  function MarkDone(s: AnthropicState, index: int): AnthropicState {
    s.(functions := s.functions.(pendingDone := s.functions.pendingDone + {index}))
  }

  function ForgetDone(s: AnthropicState, index: int): AnthropicState {
    s.(functions := s.functions.(pendingDone := s.functions.pendingDone - {index}))
  }

  /** Opens pending tools in index order until one of them is still running. */
  ghost function Pump(s: AnthropicState, names: Names): Sent
    decreases |s.functions.pending.Keys|
  {
    if s.functions.active || |s.functions.pending.Keys| == 0 then Sent(s, [])
    else
      var next := Least(s.functions.pending.Keys);
      assert next in s.functions.pending;
      var started := OpenFunction(s, next, names);
      if next !in started.state.functions.pendingDone then started
      else
        var ended := EndFunction(ForgetDone(started.state, next));
        assert ended.state.functions.pending == s.functions.pending - {next};
        assert |ended.state.functions.pending.Keys| < |s.functions.pending.Keys|;
        Following(started.frames + ended.frames, Pump(ended.state, names))
  }

  lemma PendingShrinks(s: AnthropicState, next: int, names: Names)
    requires next in s.functions.pending
    ensures var t := EndFunction(ForgetDone(OpenFunction(s, next, names).state, next)).state;
            |t.functions.pending.Keys| < |s.functions.pending.Keys|
  {
    assert EndFunction(ForgetDone(OpenFunction(s, next, names).state, next)).state.functions.pending.Keys
        == s.functions.pending.Keys - {next};
  }

  /** The output index an argument event talks about. */
  function FunctionOutputIndex(f: Functions, callId: string, index: Option<int>): Option<int> {
    if callId != "" then if callId in f.byCallId then Some(f.byCallId[callId]) else None
    else index
  }

  function AddPending(s: AnthropicState, index: int, item: CallItem): AnthropicState {
    var f := s.functions;
    s.(functions := f.(pending := f.pending[index := item],
                       byCallId := if item.callId != "" then f.byCallId[item.callId := index] else f.byCallId))
  }

  function ExtendArguments(s: AnthropicState, index: int, delta: string): Sent {
    var f := s.functions;
    if f.active && f.activeOutput == index then Sent(MarkSeen(s, index), [JsonPiece(BlockOf(f, index), delta)])
    else
      var arguments := PendingArgumentsOf(f, index) + delta;
      Sent(s.(functions := f.(pendingArguments := f.pendingArguments[index := arguments])), [])
  }

  /** Final arguments count only when nothing has been received piecemeal. */
  function OfferArguments(s: AnthropicState, index: int, arguments: string): AnthropicState {
    var f := s.functions;
    if index in f.argumentsSeen || PendingArgumentsOf(f, index) != "" then s
    else s.(functions := f.(pendingArguments := f.pendingArguments[index := arguments]))
  }

  /** A tool is done: end it when it is the active one, and open what waited behind it. */
  ghost function FunctionDone(s: AnthropicState, index: int, names: Names): Sent
  {
    var s := MarkDone(s, index);
    if s.functions.active && s.functions.activeOutput == index then
      var flushed := Flush(s, index);
      var ended := EndFunction(ForgetDone(flushed.state, index));
      Following(flushed.frames + ended.frames, Pump(ended.state, names))
    else Sent(s, [])
  }

  function MessageText(parts: seq<Part>): string {
    if parts == [] then ""
    else
      var sofar := MessageText(parts[..|parts| - 1]);
      var last := parts[|parts| - 1];
      if last.kind.OtherPart? then sofar
      else if sofar + last.text == "" then last.refusal
      else sofar + last.text
  }

  function SendText(s: AnthropicState, text: string): Sent {
    var started := Start(s.(textSeen := true), TextType, TextBlock);
    Sent(started.state, started.frames + [TextPiece(started.state.cursor.index, text)])
  }

  function SendThinking(s: AnthropicState, text: string): Sent {
    var started := Start(s, ThinkingType, ThinkingBlock);
    Sent(started.state, started.frames + [ThinkingPiece(started.state.cursor.index, text)])
  }

  ghost function ItemFinished(s: AnthropicState, index: int, item: Item, names: Names): Sent
  {
    match item
    case Reasoning(_, _, signature) =>
      Sent(s, if s.cursor.kind == ThinkingType && signature != "" then [SignaturePiece(s.cursor.index, signature)]
           else [])
    case Message(_, content) =>
      var text := MessageText(content);
      if s.textSeen || text == "" then Sent(s, []) else SendText(s, text)
    case FunctionCall(_, _, _, arguments) =>
      var s := if index in s.functions.blocks then s else AddPending(s, index, item);
      var s := if arguments != "" then OfferArguments(s, index, arguments) else s;
      var done := FunctionDone(s, index, names);
      if s.functions.active && s.functions.activeOutput == index then done
      else Following(done.frames, Pump(done.state, names))
    case OtherItem => Sent(s, [])
  }

  function UsageFor(r: Response): MessageUsage {
    MessageUsage(r.usage.input, r.usage.output, if r.usage.cached > 0 then Some(r.usage.cached) else None)
  }

  predicate HasRefusal(output: seq<Item>) {
    exists i, j :: 0 <= i < |output| && output[i].Message? && 0 <= j < |output[i].content|
      && output[i].content[j].kind.Refusal?
  }

  function AnthropicStopReason(r: Response, hasTool: bool): string {
    if hasTool then "tool_use"
    else if r.stopReason == "stop_sequence" then "stop_sequence"
    else if r.stopReason in ["refusal", "content_filter"] then "refusal"
    else if r.stopReason in ["max_output_tokens", "max_tokens", "length"] then "max_tokens"
    else if r.stopSequence != "" then "stop_sequence"
    else if r.status == "incomplete" && r.incompleteReason in ["max_output_tokens", "max_tokens"] then "max_tokens"
    else if r.status == "incomplete" && r.incompleteReason == "stop_sequence" then "stop_sequence"
    else if r.status == "incomplete" && r.incompleteReason in ["content_filter", "refusal"] then "refusal"
    else if HasRefusal(r.output) then "refusal"
    else "end_turn"
  }

  // ----- The answer from the terminal event alone -----

  datatype Content = ThinkingContent(thinking: string,
        signature: string) | TextContent(text: string) | ToolContent(id: string, name: string, arguments: string)

  datatype Answer = Answer(
    id: string, model: string, content: seq<Content>, stopReason: string, stopSequence: string, usage: MessageUsage)

  function TextContents(parts: seq<Part>): seq<Content> {
    if parts == [] then []
    else
      var last := parts[|parts| - 1];
      TextContents(parts[..|parts| - 1])
        + if last.kind.OtherPart? then [] else [TextContent(if last.text == "" then last.refusal else last.text)]
  }

  /** The content blocks of one output item; a tool's arguments are parsed by the caller. */
  function ContentOf(item: Item, names: Names): seq<Content> {
    match item
    case Reasoning(_, summary, signature) =>
      if Joined(summary) != "" || signature != "" then [ThinkingContent(Joined(summary), signature)] else []
    case Message(_, content) => TextContents(content)
    case FunctionCall(callId, _, name, arguments) => [ToolContent(callId, ClientName(names, name), arguments)]
    case OtherItem => []
  }

  function Contents(output: seq<Item>, names: Names): seq<Content> {
    if output == [] then []
    else Contents(output[..|output| - 1], names) + ContentOf(output[|output| - 1], names)
  }

  predicate HasCall(output: seq<Item>) {
    exists i :: 0 <= i < |output| && output[i].FunctionCall?
  }

  function AnthropicResponse(model: string, events: seq<Body>, names: Names): Option<Answer> {
    var found := TerminalResponse(events);
    if found.None? then None
    else
      var r := found.value;
      Some(Answer(r.id, if r.model != "" then r.model else model, Contents(r.output, names),
                  AnthropicStopReason(r, HasCall(r.output)), r.stopSequence, UsageFor(r)))
  }

  ghost function Terminate(s: AnthropicState, r: Response, names: Names): Sent
  {
    var pumped := Pump(s, names);
    var ended := if pumped.state.functions.active then EndFunction(pumped.state) else Sent(pumped.state, []);
    var closed := CloseBlock(ended.state);
    Sent(closed.state, pumped.frames + ended.frames + closed.frames
      + [MessageDelta(AnthropicStopReason(r, pumped.state.hasClientTool), r.stopSequence, UsageFor(r)), MessageStop])
  }

  ghost function AnthropicStream(s: AnthropicState, b: Body, model: string, names: Names): Sent
  {
    match b
    case Created(id, m) => Sent(s.(started := true), [MessageStart(id, if m != "" then m else model)])
    case ReasoningDelta(delta) => SendThinking(s, delta)
    case TextDelta(delta) => SendText(s, delta)
    case RefusalDelta(delta) => SendText(s, delta)
    case ItemAdded(index, item) => if item.FunctionCall? then Pump(AddPending(s, index, item), names) else Sent(s, [])
    case ArgumentsDelta(callId, _, index, delta) =>
      var found := FunctionOutputIndex(s.functions, callId, index);
      if found.None? then Sent(s, []) else ExtendArguments(s, found.value, delta)
    case ArgumentsDone(callId, _, index, arguments) =>
      var found := FunctionOutputIndex(s.functions, callId, index);
      if found.None? then Sent(s, []) else FunctionDone(OfferArguments(s, found.value, arguments), found.value, names)
    case ItemDone(_, index, item) => ItemFinished(s, index, item, names)
    case Completed(_) => Terminate(s, ResponseOf(b), names)
    case Incomplete(_) => Terminate(s, ResponseOf(b), names)
    case OtherEvent => Sent(s, [])
  }
}

/** The translator object, proved against the step functions. */
module AnthropicTranslator {
  import opened Basics
  import opened CanonicalEvents
  import opened Steps = AnthropicSteps

  class StreamState {
    var cursor: Cursor
    var functions: Functions
    var hasClientTool: bool
    var started: bool
    var textSeen: bool

    function Fields(): AnthropicState
      reads this
    {
      AnthropicState(cursor, functions, hasClientTool, started, textSeen)
    }

    constructor ()
      ensures Fields() == INITIAL
    {
      cursor := Cursor(0, NoBlock);
      functions := Functions(map[], map[], {}, map[], map[], {}, false, 0);
      hasClientTool, started, textSeen := false, false, false;
    }

    method CloseBlock() returns (out: seq<Frame>)
      modifies this`cursor
      ensures Sent(Fields(), out) == Steps.CloseBlock(old(Fields()))
    {
      out := [];
      if cursor.kind != NoBlock {
        out := [BlockStop(cursor.index)];
        cursor := Cursor(cursor.index + 1, NoBlock);
      }
    }

    method Start(kind: BlockType, block: Block) returns (out: seq<Frame>)
      modifies this`cursor
      ensures Sent(Fields(), out) == Steps.Start(old(Fields()), kind, block)
    {
      if cursor.kind == kind { return []; }
      out := CloseBlock();
      cursor := cursor.(kind := kind);
      out := out + [BlockStart(cursor.index, block)];
    }

    method EndFunction() returns (out: seq<Frame>)
      modifies this`cursor, this`functions
      ensures Sent(Fields(), out) == Steps.EndFunction(old(Fields()))
    {
      out := CloseBlock();
      functions := functions.(active := false);
    }

    method Flush(index: int) returns (out: seq<Frame>)
      modifies this`functions
      ensures Sent(Fields(), out) == Steps.Flush(old(Fields()), index)
    {
      out := [];
      var arguments := PendingArgumentsOf(functions, index);
      if arguments != "" {
        out := [JsonPiece(BlockOf(functions, index), arguments)];
        functions := functions.(pendingArguments := functions.pendingArguments - {index});
      }
    }

    method NextPending() returns (next: int)
      requires |functions.pending.Keys| > 0
      ensures next == Least(functions.pending.Keys)
    {
      var rest := functions.pending.Keys;
      var first := true;
      next := 0;
      while rest != {}
        invariant rest <= functions.pending.Keys
        invariant first ==> rest == functions.pending.Keys
        invariant !first ==> next in functions.pending && forall k :: k in functions.pending && k !in rest ==> next <= k
      {
        var k := Pick(rest);
        if first || k < next {
          first, next := false, k;
        }
        rest := rest - {k};
      }
    }

    method OpenFunction(index: int, names: Names) returns (out: seq<Frame>)
      requires index in functions.pending
      modifies this`cursor, this`functions, this`hasClientTool
      ensures Sent(Fields(), out) == Steps.OpenFunction(old(Fields()), index, names)
    {
      var item := functions.pending[index];
      hasClientTool := true;
      cursor := cursor.(kind := ToolType);
      functions := functions.(pending := functions.pending - {index}, active := true, activeOutput := index,
                              blocks := functions.blocks[index := cursor.index]);
      out := [BlockStart(cursor.index, ToolBlock(CallIdOf(item), ClientName(names, item.name)))];
      var flushed := Flush(index);
      if flushed != [] {
        functions := functions.(argumentsSeen := functions.argumentsSeen + {index});
      }
      out := out + flushed;
    }

    method PumpFunctions(names: Names) returns (out: seq<Frame>)
      modifies this`cursor, this`functions, this`hasClientTool
      ensures Sent(Fields(), out) == Pump(old(Fields()), names)
    {
      hide Steps.OpenFunction, Steps.EndFunction;
      out := [];
      ghost var start := Fields();
      while !functions.active && |functions.pending.Keys| > 0
        invariant Pump(start, names) == Following(out, Pump(Fields(), names))
        decreases |functions.pending.Keys|
      {
        ghost var s := Fields();
        var next := NextPending();
        assert next in functions.pending;
        var started := OpenFunction(next, names);
        if next !in functions.pendingDone {
          return out + started;
        }
        functions := functions.(pendingDone := functions.pendingDone - {next});
        var ended := EndFunction();
        PendingShrinks(s, next, names);
        assert out + (started + ended) == out + started + ended;
        FollowingTwice(out, started + ended, Pump(Fields(), names));
        out := out + started + ended;
      }
    }

    method FunctionDone(index: int, names: Names) returns (out: seq<Frame>)
      modifies this`cursor, this`functions, this`hasClientTool
      ensures Sent(Fields(), out) == Steps.FunctionDone(old(Fields()), index, names)
    {
      hide Steps.EndFunction, Pump, Steps.Flush;
      out := [];
      functions := functions.(pendingDone := functions.pendingDone + {index});
      if functions.active && functions.activeOutput == index {
        out := Flush(index);
        functions := functions.(pendingDone := functions.pendingDone - {index});
        var ended := EndFunction();
        var pumped := PumpFunctions(names);
        out := out + ended + pumped;
      }
    }

    method CollectText(parts: seq<Part>) returns (text: string)
      ensures text == MessageText(parts)
    {
      text := "";
      for i := 0 to |parts|
        invariant text == MessageText(parts[..i])
      {
        assert parts[..i + 1][..i] == parts[..i];
        if !parts[i].kind.OtherPart? {
          text := text + parts[i].text;
          if text == "" { text := text + parts[i].refusal; }
        }
      }
      assert parts[..|parts|] == parts;
    }

    method SendText(text: string) returns (out: seq<Frame>)
      modifies this`cursor, this`textSeen
      ensures Sent(Fields(), out) == Steps.SendText(old(Fields()), text)
    {
      textSeen := true;
      out := Start(TextType, TextBlock);
      out := out + [TextPiece(cursor.index, text)];
    }

    method ItemFinished(index: int, item: Item, names: Names) returns (out: seq<Frame>)
      modifies this
      ensures Sent(Fields(), out) == Steps.ItemFinished(old(Fields()), index, item, names)
    {
      hide Steps.FunctionDone, Pump, Steps.SendText;
      out := [];
      match item {
        case Reasoning(_, _, signature) =>
          if cursor.kind == ThinkingType && signature != "" {
            out := [SignaturePiece(cursor.index, signature)];
          }
        case Message(_, content) =>
          if !textSeen {
            var text := CollectText(content);
            if text != "" {
              out := SendText(text);
            }
          }
        case FunctionCall(_, _, _, arguments) =>
          if index !in functions.blocks {
            functions := AddPending(Fields(), index, item).functions;
          }
          if arguments != "" {
            functions := OfferArguments(Fields(), index, arguments).functions;
          }
          var active := functions.active && functions.activeOutput == index;
          out := FunctionDone(index, names);
          if !active {
            var pumped := PumpFunctions(names);
            out := out + pumped;
          }
        case OtherItem =>
      }
    }

    method Terminate(r: Response, names: Names) returns (out: seq<Frame>)
      modifies this
      ensures Sent(Fields(), out) == Steps.Terminate(old(Fields()), r, names)
    {
      hide Pump, Steps.EndFunction, Steps.CloseBlock, AnthropicStopReason;
      out := PumpFunctions(names);
      if functions.active {
        var ended := EndFunction();
        out := out + ended;
      }
      ToolFlagKept(Fields());
      var closed := CloseBlock();
      out := out + closed
          + [MessageDelta(AnthropicStopReason(r, hasClientTool), r.stopSequence, UsageFor(r)), MessageStop];
    }

    method Stream(b: Body, model: string, names: Names) returns (out: seq<Frame>)
      modifies this
      ensures Sent(Fields(), out) == AnthropicStream(old(Fields()), b, model, names)
    {
      hide Steps.FunctionDone, Pump, Steps.SendText, Steps.ItemFinished, Steps.Terminate;
      out := [];
      match b {
        case Created(id, m) =>
          started := true;
          out := [MessageStart(id, if m != "" then m else model)];
        case ReasoningDelta(delta) =>
          out := Start(ThinkingType, ThinkingBlock);
          out := out + [ThinkingPiece(cursor.index, delta)];
        case TextDelta(delta) =>
          out := SendText(delta);
        case RefusalDelta(delta) =>
          out := SendText(delta);
        case ItemAdded(index, item) =>
          if item.FunctionCall? {
            functions := AddPending(Fields(), index, item).functions;
            out := PumpFunctions(names);
          }
        case ArgumentsDelta(callId, _, index, delta) =>
          var found := FunctionOutputIndex(functions, callId, index);
          if found.Some? {
            if functions.active && functions.activeOutput == found.value {
              out := [JsonPiece(BlockOf(functions, found.value), delta)];
              functions := functions.(argumentsSeen := functions.argumentsSeen + {found.value});
            } else {
              var buffered := PendingArgumentsOf(functions, found.value) + delta;
              functions := functions.(pendingArguments := functions.pendingArguments[found.value := buffered]);
            }
          }
        case ArgumentsDone(callId, _, index, arguments) =>
          var found := FunctionOutputIndex(functions, callId, index);
          if found.Some? {
            functions := OfferArguments(Fields(), found.value, arguments).functions;
            out := FunctionDone(found.value, names);
          }
        case ItemDone(_, index, item) =>
          out := ItemFinished(index, item, names);
        case Completed(_) =>
          out := Terminate(ResponseOf(b), names);
        case Incomplete(_) =>
          out := Terminate(ResponseOf(b), names);
        case OtherEvent =>
      }
    }
  }

  method CollectTexts(parts: seq<Part>) returns (content: seq<Content>)
    ensures content == TextContents(parts)
  {
    content := [];
    for i := 0 to |parts|
      invariant content == TextContents(parts[..i])
    {
      assert parts[..i + 1][..i] == parts[..i];
      if !parts[i].kind.OtherPart? {
        var text := parts[i].text;
        if text == "" { text := parts[i].refusal; }
        content := content + [TextContent(text)];
      }
    }
    assert parts[..|parts|] == parts;
  }

  method ContentOfItem(item: Item, names: Names) returns (content: seq<Content>)
    ensures content == ContentOf(item, names)
  {
    content := [];
    match item {
      case Reasoning(_, summary, signature) =>
        var thinking := CollectSummary(summary);
        if thinking != "" || signature != "" {
          content := [ThinkingContent(thinking, signature)];
        }
      case Message(_, parts) =>
        content := CollectTexts(parts);
      case FunctionCall(callId, _, name, arguments) =>
        content := [ToolContent(callId, ClientName(names, name), arguments)];
      case OtherItem =>
    }
  }

  lemma HasCallNext(output: seq<Item>, i: nat)
    requires i < |output|
    ensures HasCall(output[..i + 1]) <==> HasCall(output[..i]) || output[i].FunctionCall?
  {
    assert output[..i + 1] == output[..i] + [output[i]];
    if HasCall(output[..i]) {
      var k :| 0 <= k < i && output[..i][k].FunctionCall?;
      assert output[..i + 1][k].FunctionCall?;
    }
    if output[i].FunctionCall? {
      assert output[..i + 1][i].FunctionCall?;
    }
  }

  lemma NoCalls()
    ensures !HasCall([])
  {
  }

  method Respond(model: string, events: seq<Body>, names: Names) returns (answer: Option<Answer>)
    ensures answer == AnthropicResponse(model, events, names)
  {
    hide ContentOf, HasCall, AnthropicStopReason, UsageFor;
    var found := FindTerminalResponse(events);
    if found.None? { return None; }
    var r := found.value;
    var content, hasTool := [], false;
    NoCalls();
    for i := 0 to |r.output|
      invariant content == Contents(r.output[..i], names)
      invariant hasTool <==> HasCall(r.output[..i])
    {
      assert r.output[..i + 1][..i] == r.output[..i];
      HasCallNext(r.output, i);
      var blocks := ContentOfItem(r.output[i], names);
      content := content + blocks;
      hasTool := hasTool || r.output[i].FunctionCall?;
    }
    assert r.output[..|r.output|] == r.output;
    answer := Some(Answer(r.id, if r.model != "" then r.model else model, content,
                          AnthropicStopReason(r, hasTool), r.stopSequence, UsageFor(r)));
  }

  lemma FollowingTwice(a: seq<Frame>, b: seq<Frame>, t: Sent)
    ensures Following(a, Following(b, t)) == Following(a + b, t)
  {
    assert a + (b + t.frames) == (a + b) + t.frames;
  }

  lemma ToolFlagKept(s: AnthropicState)
    ensures Steps.CloseBlock(s).state.hasClientTool == s.hasClientTool
  {
  }
}
