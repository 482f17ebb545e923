/**
 Turning Devin chat frames into canonical events: the mapper's fields, grouped,
 and each step as a function on them.
 Strings are byte strings, one char a byte.
 */
module MapperSteps {
  import opened Basics
  import opened CanonicalEvents

  const MAX_INT64: nat := 0x7FFF_FFFF_FFFF_FFFF

  type uint64 = x: nat | x <= 0xFFFF_FFFF_FFFF_FFFF

  datatype StopReason =
    | StopUnspecified | StopIncomplete | StopPattern | StopMaxTokens | StopMinLogProb | StopMaxNewlines
    | StopExitScope | StopNonfinite | StopFirstNonWhitespaceLine | StopPartial | StopFunctionCall
    | StopContentFilter | StopNonInsertion | StopError | StopOther(code: nat)

  datatype Call = Call(id: string, name: string, arguments: string)

  datatype UsageStats = UsageStats(input: uint64, output: uint64, cacheRead: uint64)

  datatype Frame = Frame(
    messageId: string, text: string, thinking: string, signature: string,
    actualModel: Option<string>, stop: StopReason, calls: seq<Call>, usage: Option<UsageStats>)

  datatype Tool = Tool(id: string, name: string, arguments: string, outputIndex: nat, done: bool)

  /** The JSON validity test of tool arguments, known only to reject the empty string. */
  type JsonTest = f: string -> bool | !f("") witness s => s != ""

  /** Identity, stop reason and usage of the response. */
  datatype Head = Head(selectedModel: string, responseId: string, actualModel: string, created: bool, stop: StopReason,
        usage: Usage)

  datatype Thought = Thought(index: int, open: bool, done: bool, text: string, signature: string)

  datatype Prose = Prose(index: int, text: string)

  datatype ToolTable = ToolTable(byId: map<string, Tool>, order: seq<string>, active: string)

  /** Where output goes: the next output index, the next sequence number, the finished items. */
  datatype Sink = Sink(next: nat, sequence: nat, items: map<int, Item>)

  datatype State = State(
    maxToolBytes: int, terminal: bool, head: Head, thought: Thought, prose: Prose, table: ToolTable, sink: Sink)

  /** What a step leaves behind: the fields, the emitted events, and whether it succeeded. */
  datatype Outcome = Outcome(state: State, events: seq<Event>, ok: bool)

  function Done(s: State, events: seq<Event>): Outcome { Outcome(s, events, true) }

  function Fail(s: State): Outcome { Outcome(s, [], false) }

  /** The outcome of a step that follows events already emitted. */
  function After(earlier: seq<Event>, o: Outcome): Outcome {
    if o.ok then o.(events := earlier + o.events) else o
  }

  function Initial(selectedModel: string, responseId: string, maxToolBytes: int): State {
    State(maxToolBytes, false,
          Head(selectedModel, if responseId == "" then "devin-response" else responseId, "", false, StopUnspecified,
               NO_USAGE),
          Thought(-1, false, false, "", ""), Prose(-1, ""), ToolTable(map[], [], ""), Sink(0, 0, map[]))
  }

  function Model(h: Head): string {
    if h.actualModel != "" then h.actualModel else h.selectedModel
  }

  function CheckedUsage(u: UsageStats): Option<Usage> {
    if u.input > MAX_INT64 || u.output > MAX_INT64 || u.cacheRead > MAX_INT64 || u.input > MAX_INT64 - u.output
    then None
    else Some(Usage(u.input, u.output, u.input + u.output, u.cacheRead, 0))
  }

  function ReasoningItem(t: Thought): Item {
    Reasoning("reasoning-0", [t.text], t.signature)
  }

  function TextItem(text: string): Item {
    Message("message-0", [Part(OutputText, text, "")])
  }

  function ToolItem(id: string, name: string, arguments: string): Item {
    FunctionCall(id, id, name, arguments)
  }

  function Numbered(sequence: nat, body: Body): Event {
    Event(sequence, body, NO_USAGE)
  }

  /** The sink after n more events. */
  function Count(k: Sink, n: nat): Sink {
    k.(sequence := k.sequence + n)
  }

  /** The sink after a new output index has been taken and one event emitted. */
  function Allocate(k: Sink): Sink {
    k.(next := k.next + 1, sequence := k.sequence + 1)
  }

  function Open(s: State): Outcome {
    if s.head.created then Done(s, [])
    else Done(s.(head := s.head.(created := true), sink := Count(s.sink, 1)),
              [Numbered(s.sink.sequence, Created(s.head.responseId, Model(s.head)))])
  }

  /** The identifiers a frame announces; the response id is fixed once the response has been created. */
  function Identify(h: Head, f: Frame): Head {
    h.(responseId := if !h.created && f.messageId != "" then f.messageId else h.responseId,
       actualModel := if f.actualModel.Some? && !Blank(f.actualModel.value) then f.actualModel.value else h.actualModel)
  }

  function Sign(t: Thought, signature: string): Thought {
    if signature == "" then t else t.(signature := signature)
  }

  function Stop(h: Head, f: Frame): Head {
    if f.stop == StopUnspecified then h else h.(stop := f.stop)
  }

  predicate UsageInRange(f: Frame) {
    f.usage.Some? ==> CheckedUsage(f.usage.value).Some?
  }

  function Spend(h: Head, f: Frame): Head
    requires UsageInRange(f)
  {
    if f.usage.None? then h else h.(usage := CheckedUsage(f.usage.value).value)
  }

  function PushThinking(s: State, delta: string): Outcome {
    if delta == "" then Done(s, [])
    else
      var t := s.thought;
      var first := t.index < 0;
      Done(s.(thought := t.(index := if first then s.sink.next else t.index, open := true, text := t.text + delta),
              sink := if first then Allocate(s.sink) else Count(s.sink, 1)),
           [Numbered(s.sink.sequence, ReasoningDelta(delta))])
  }

  /** Announces the finished reasoning item, once. */
  function CloseReasoning(s: State): Outcome {
    var t := s.thought;
    if t.open && !t.done then
      Done(s.(thought := t.(open := false, done := true),
              sink := Count(s.sink, 1).(items := s.sink.items[t.index := ReasoningItem(t)])),
           [Numbered(s.sink.sequence, ItemDone("", t.index, ReasoningItem(t)))])
    else Done(s, [])
  }

  function AddText(s: State, delta: string): Outcome {
    var first := s.prose.index < 0;
    Done(s.(prose := Prose(if first then s.sink.next else s.prose.index, s.prose.text + delta),
            sink := if first then Allocate(s.sink) else Count(s.sink, 1)),
         [Numbered(s.sink.sequence, TextDelta(delta))])
  }

  function PushText(s: State, delta: string): Outcome {
    if delta == "" then Done(s, [])
    else
      var closed := CloseReasoning(s);
      After(closed.events, AddText(closed.state, delta))
  }

  /** What a tool call fragment adds: a snapshot that extends the text so far contributes only its new tail. */
  function NewArguments(sofar: string, fragment: string): string {
    if sofar <= fragment then fragment[|sofar|..] else fragment
  }

  function AddArguments(s: State, id: string, fragment: string): Outcome
    requires id in s.table.byId
  {
    var t := s.table.byId[id];
    var table := s.table.(active := id);
    var delta := NewArguments(t.arguments, fragment);
    if fragment == "" || delta == "" then Done(s.(table := table), [])
    else if |t.arguments| + |delta| > s.maxToolBytes then Fail(s.(table := table))
    else Done(s.(table := table.(byId := table.byId[id := t.(arguments := t.arguments + delta)]),
                 sink := Count(s.sink, 1)),
              [Numbered(s.sink.sequence, ArgumentsDelta("", id, Some(t.outputIndex), delta))])
  }

  function AddTool(s: State, id: string, name: string): (o: Outcome)
    ensures id in o.state.table.byId
  {
    var t := Tool(id, name, "", s.sink.next, false);
    Done(s.(table := s.table.(byId := s.table.byId[id := t], order := s.table.order + [id]), sink := Allocate(s.sink)),
         [Numbered(s.sink.sequence, ItemAdded(t.outputIndex, ToolItem(id, name, "")))])
  }

  function Addressee(active: string, call: Call): string {
    if call.id == "" then active else call.id
  }

  function PushTool(s: State, call: Call): Outcome {
    var id := Addressee(s.table.active, call);
    if id == "" then Fail(s)
    else if id !in s.table.byId then
      if call.name == "" then Fail(s)
      else
        var added := AddTool(s, id, call.name);
        After(added.events, AddArguments(added.state, id, call.arguments))
    else if call.name != "" && call.name != s.table.byId[id].name then Fail(s)
    else AddArguments(s, id, call.arguments)
  }

  function PushTools(s: State, calls: seq<Call>): Outcome {
    if calls == [] then Done(s, [])
    else
      var most := PushTools(s, calls[..|calls| - 1]);
      if !most.ok then most else After(most.events, PushTool(most.state, calls[|calls| - 1]))
  }

  /** The frame's identifiers and signature, and the opening event before anything else. */
  function Begin(s: State, f: Frame): Outcome {
    Open(s.(head := Identify(s.head, f), thought := Sign(s.thought, f.signature)))
  }

  function PushDeltas(s: State, f: Frame): Outcome {
    var thinking := PushThinking(s, f.thinking);
    After(thinking.events, PushText(thinking.state, f.text))
  }

  function Push(s: State, f: Frame): Outcome {
    if s.terminal then Done(s, [])
    else if s.thought.done && (f.thinking != "" || f.signature != "") then Fail(s)
    else
      var start := Begin(s, f);
      var stopped := start.state.(head := Stop(start.state.head, f));
      if !UsageInRange(f) then Fail(stopped)
      else
        var deltas := PushDeltas(stopped.(head := Spend(stopped.head, f)), f);
        After(start.events + deltas.events, PushTools(deltas.state, f.calls))
  }

  /** Every announced tool has its accumulator. */
  predicate Tracked(t: ToolTable) {
    forall id :: id in t.order ==> id in t.byId
  }

  function CloseText(s: State): Outcome {
    if s.prose.text == "" then Done(s, [])
    else Done(s.(sink := Count(s.sink, 1).(items := s.sink.items[s.prose.index := TextItem(s.prose.text)])),
              [Numbered(s.sink.sequence, ItemDone("", s.prose.index, TextItem(s.prose.text)))])
  }

  function CloseTool(s: State, id: string, valid: JsonTest): Outcome
    requires id in s.table.byId
  {
    var t := s.table.byId[id];
    if !valid(t.arguments) then Fail(s)
    else
      var item := ToolItem(id, t.name, t.arguments);
      Done(s.(table := s.table.(byId := s.table.byId[id := t.(done := true)]),
              sink := Count(s.sink, 2).(items := s.sink.items[t.outputIndex := item])),
           [Numbered(s.sink.sequence, ArgumentsDone("", id, Some(t.outputIndex), t.arguments)),
            Numbered(s.sink.sequence + 1, ItemDone("", t.outputIndex, item))])
  }

  /** Closes the first k tools in the order of their announcement. */
  function CloseTools(s: State, k: nat, valid: JsonTest): (o: Outcome)
    requires Tracked(s.table) && k <= |s.table.order|
    ensures Tracked(o.state.table) && o.state.table.order == s.table.order
  {
    if k == 0 then Done(s, [])
    else
      var most := CloseTools(s, k - 1, valid);
      if !most.ok then most else After(most.events, CloseTool(most.state, s.table.order[k - 1], valid))
  }

  /** The items stored under the indexes below n, in index order. */
  function Collect(items: map<int, Item>, n: nat): seq<Item> {
    if n == 0 then []
    else Collect(items, n - 1) + if n - 1 in items then [items[n - 1]] else []
  }

  function IncompleteReason(stop: StopReason): string {
    match stop
    case StopMaxTokens => "max_output_tokens"
    case StopIncomplete => "incomplete"
    case StopPartial => "incomplete"
    case StopContentFilter => "content_filter"
    case _ => ""
  }

  function FinalResponse(s: State): Response {
    var reason := IncompleteReason(s.head.stop);
    Response(s.head.responseId, Model(s.head), if reason == "" then "completed" else "incomplete", reason, "", "",
             Collect(s.sink.items, s.sink.next), s.head.usage)
  }

  function Terminate(s: State): Outcome {
    var r := FinalResponse(s);
    var body := if r.status == "incomplete" then Incomplete(Some(r)) else Completed(Some(r));
    Done(s.(sink := Count(s.sink, 1), terminal := true), [Event(s.sink.sequence, body, s.head.usage)])
  }

  /** The terminal view of the reasoning item replaces the stored one. */
  function StoreReasoning(s: State): State {
    if s.thought.index < 0 then s
    else s.(sink := s.sink.(items := s.sink.items[s.thought.index := ReasoningItem(s.thought)]))
  }

  function PrepareFinal(s: State): Outcome {
    var start := Open(s);
    var reasoned := CloseReasoning(start.state);
    After(start.events + reasoned.events, CloseText(StoreReasoning(reasoned.state)))
  }

  function Finalize(s: State, valid: JsonTest): Outcome
    requires Tracked(s.table)
  {
    if s.terminal then Done(s, [])
    else if s.head.stop == StopError then Fail(s)
    else
      var prepared := PrepareFinal(s);
      var tools := CloseTools(prepared.state, |s.table.order|, valid);
      if !tools.ok then tools
      else After(prepared.events + tools.events, Terminate(tools.state))
  }

  /** Every step keeps an accumulator for every announced tool. */
  lemma PushTracked(s: State, f: Frame)
    requires Tracked(s.table)
    ensures Tracked(Push(s, f).state.table)
  {
    hide PushTools;
    if !s.terminal && !(s.thought.done && (f.thinking != "" || f.signature != "")) && UsageInRange(f) {
      var start := Begin(s, f).state;
      PushToolsTracked(PushDeltas(start.(head := Spend(Stop(start.head, f), f)), f).state, f.calls);
    }
  }

  lemma {:induction false} PushToolsTracked(s: State, calls: seq<Call>)
    requires Tracked(s.table)
    ensures Tracked(PushTools(s, calls).state.table)
  {
    hide PushTool;
    if calls != [] {
      var most := calls[..|calls| - 1];
      PushToolsTracked(s, most);
      PushToolTracked(PushTools(s, most).state, calls[|calls| - 1]);
    }
  }

  lemma PushToolTracked(s: State, call: Call)
    requires Tracked(s.table)
    ensures Tracked(PushTool(s, call).state.table)
  {
  }

  /** A failed call fragment ends the frame: the later ones are not looked at. */
  lemma {:induction false} PushToolsStop(s: State, calls: seq<Call>, k: nat)
    requires k <= |calls| && !PushTools(s, calls[..k]).ok
    ensures PushTools(s, calls) == PushTools(s, calls[..k])
    decreases |calls|
  {
    if k < |calls| {
      var most := calls[..|calls| - 1];
      assert most[..k] == calls[..k];
      PushToolsStop(s, most, k);
    } else {
      assert calls[..k] == calls;
    }
  }

  lemma {:induction false} CloseToolsStop(s: State, k: nat, n: nat, valid: JsonTest)
    requires Tracked(s.table) && k <= n <= |s.table.order| && !CloseTools(s, k, valid).ok
    ensures CloseTools(s, n, valid) == CloseTools(s, k, valid)
    decreases n
  {
    if k < n {
      CloseToolsStop(s, k, n - 1, valid);
    }
  }
}

/** The mapper object, proved against the step functions; its fields are grouped as above. */
module StreamMapper {
  import opened Basics
  import opened CanonicalEvents
  import opened Steps = MapperSteps

  lemma CloseNoTools(s: State, valid: JsonTest)
    requires Tracked(s.table)
    ensures Steps.CloseTools(s, 0, valid) == Outcome(s, [], true)
  {
  }

  lemma CloseNextTool(s: State, k: nat, valid: JsonTest)
    requires Tracked(s.table) && k < |s.table.order| && Steps.CloseTools(s, k, valid).ok
    ensures s.table.order[k] in Steps.CloseTools(s, k, valid).state.table.byId
    ensures var most := Steps.CloseTools(s, k, valid);
            Steps.CloseTools(s, k + 1, valid)
              == After(most.events, Steps.CloseTool(most.state, s.table.order[k], valid))
  {
    hide Steps.CloseTool;
  }

  class StreamMapper {
    const maxToolBytes: int
    var terminal: bool
    var head: Head
    var thought: Thought
    var prose: Prose
    var table: ToolTable
    var sink: Sink

    function Fields(): State
      reads this
    {
      State(maxToolBytes, terminal, head, thought, prose, table, sink)
    }

    ghost predicate Valid()
      reads this
    {
      Tracked(table)
    }

    /** Callers check that the model name is not blank and the limit is positive. */
    constructor (selectedModel: string, responseId: string, maxToolArgumentBytes: int)
      requires !Blank(selectedModel) && maxToolArgumentBytes > 0
      ensures Valid() && Fields() == Initial(selectedModel, responseId, maxToolArgumentBytes)
    {
      maxToolBytes := maxToolArgumentBytes;
      terminal := false;
      head := Head(selectedModel, if responseId == "" then "devin-response" else responseId, "", false, StopUnspecified,
                   NO_USAGE);
      thought := Thought(-1, false, false, "", "");
      prose := Prose(-1, "");
      table := ToolTable(map[], [], "");
      sink := Sink(0, 0, map[]);
    }

    /** The mapper a caller is given: none for a blank model or a limit that is not positive. */
    static method NewStreamMapper(selectedModel: string, responseId: string,
          maxToolArgumentBytes: int) returns (mapper: StreamMapper?)
      ensures mapper == null <==> Blank(selectedModel) || maxToolArgumentBytes <= 0
      ensures mapper != null ==>
        fresh(mapper) && mapper.Valid() && mapper.Fields() == Initial(selectedModel, responseId, maxToolArgumentBytes)
    {
      if Blank(selectedModel) || maxToolArgumentBytes <= 0 { return null; }
      mapper := new StreamMapper(selectedModel, responseId, maxToolArgumentBytes);
    }

    method MakeEvent(body: Body) returns (e: Event)
      modifies this`sink
      ensures sink == Count(old(sink), 1) && e == Numbered(old(sink).sequence, body)
    {
      e := Numbered(sink.sequence, body);
      sink := sink.(sequence := sink.sequence + 1);
    }

    method TakeIndex() returns (index: nat)
      modifies this`sink
      ensures index == old(sink).next && sink == old(sink).(next := index + 1)
    {
      index := sink.next;
      sink := sink.(next := index + 1);
    }

    method Store(index: int, item: Item)
      modifies this`sink
      ensures sink == old(sink).(items := old(sink).items[index := item])
    {
      sink := sink.(items := sink.items[index := item]);
    }

    method Announce() returns (events: seq<Event>)
      modifies this`sink, this`head
      ensures Done(Fields(), events) == Open(old(Fields()))
    {
      events := [];
      if !head.created {
        head := head.(created := true);
        var e := MakeEvent(Created(head.responseId, Model(head)));
        events := [e];
      }
    }

    method FinishReasoning() returns (events: seq<Event>)
      modifies this`sink, this`thought
      ensures Done(Fields(), events) == CloseReasoning(old(Fields()))
    {
      events := [];
      if thought.open && !thought.done {
        thought := thought.(open := false, done := true);
        var item := Reasoning("reasoning-0", [thought.text], thought.signature);
        Store(thought.index, item);
        var e := MakeEvent(ItemDone("", thought.index, item));
        events := [e];
      }
    }

    method Begin(frame: Frame) returns (out: seq<Event>)
      modifies this`sink, this`head, this`thought
      ensures Done(Fields(), out) == Steps.Begin(old(Fields()), frame)
    {
      if !head.created && frame.messageId != "" { head := head.(responseId := frame.messageId); }
      if frame.actualModel.Some? && !Blank(frame.actualModel.value) {
        head := head.(actualModel := frame.actualModel.value);
      }
      if frame.signature != "" { thought := thought.(signature := frame.signature); }
      out := Announce();
    }

    method Push(frame: Frame) returns (ok: bool, out: seq<Event>)
      requires Valid()
      modifies this
      ensures Valid()
      ensures Outcome(Fields(), out, ok) == Steps.Push(old(Fields()), frame)
    {
      hide Steps.Begin, Steps.PushDeltas, Steps.PushTools;
      PushTracked(Fields(), frame);
      if terminal { return true, []; }
      if thought.done && (frame.thinking != "" || frame.signature != "") { return false, []; }
      out := Begin(frame);
      if frame.stop != StopUnspecified { head := head.(stop := frame.stop); }
      if frame.usage.Some? {
        var checked := CheckedUsage(frame.usage.value);
        if checked.None? { return false, []; }
        head := head.(usage := checked.value);
      }
      var deltas := PushDeltas(frame);
      var tools;
      ok, tools := PushTools(frame.calls);
      out := if ok then out + deltas + tools else tools;
    }

    method PushDeltas(frame: Frame) returns (out: seq<Event>)
      modifies this`sink, this`thought, this`prose
      ensures Done(Fields(), out) == Steps.PushDeltas(old(Fields()), frame)
    {
      out := PushThinking(frame.thinking);
      var texts := PushText(frame.text);
      out := out + texts;
    }

    method PushThinking(delta: string) returns (out: seq<Event>)
      modifies this`sink, this`thought
      ensures Done(Fields(), out) == Steps.PushThinking(old(Fields()), delta)
    {
      out := [];
      if delta != "" {
        if thought.index < 0 {
          var index := TakeIndex();
          thought := thought.(index := index);
        }
        thought := thought.(open := true, text := thought.text + delta);
        var e := MakeEvent(ReasoningDelta(delta));
        out := [e];
      }
    }

    method PushText(delta: string) returns (out: seq<Event>)
      modifies this`sink, this`thought, this`prose
      ensures Done(Fields(), out) == Steps.PushText(old(Fields()), delta)
    {
      out := [];
      if delta != "" {
        out := FinishReasoning();
        if prose.index < 0 {
          var index := TakeIndex();
          prose := prose.(index := index);
        }
        prose := prose.(text := prose.text + delta);
        var e := MakeEvent(TextDelta(delta));
        out := out + [e];
      }
    }

    method PushTools(calls: seq<Call>) returns (ok: bool, out: seq<Event>)
      requires Valid()
      modifies this`sink, this`table
      ensures Outcome(Fields(), out, ok) == Steps.PushTools(old(Fields()), calls)
    {
      hide Steps.PushTool, Tracked;
      ok, out := true, [];
      for i := 0 to |calls|
        invariant Valid()
        invariant ok && Outcome(Fields(), out, ok) == Steps.PushTools(old(Fields()), calls[..i])
      {
        assert calls[..i + 1][..i] == calls[..i];
        PushToolTracked(Fields(), calls[i]);
        var pushed, events := PushTool(calls[i]);
        if !pushed {
          PushToolsStop(old(Fields()), calls, i + 1);
          return false, events;
        }
        out := out + events;
      }
      assert calls[..|calls|] == calls;
    }

    method PushTool(call: Call) returns (ok: bool, out: seq<Event>)
      modifies this`sink, this`table
      ensures Outcome(Fields(), out, ok) == Steps.PushTool(old(Fields()), call)
    {
      hide Steps.AddTool, Steps.AddArguments;
      out := [];
      var id := call.id;
      if id == "" {
        id := table.active;
        if id == "" { return false, []; }
      }
      if id !in table.byId {
        if call.name == "" { return false, []; }
        out := AddTool(id, call.name);
      } else if call.name != "" && call.name != table.byId[id].name {
        return false, [];
      }
      var events;
      ok, events := AddArguments(id, call.arguments);
      out := if ok then out + events else events;
    }

    method AddTool(id: string, name: string) returns (out: seq<Event>)
      modifies this`sink, this`table
      ensures Done(Fields(), out) == Steps.AddTool(old(Fields()), id, name)
      ensures id in table.byId
    {
      var index := TakeIndex();
      table := table.(byId := table.byId[id := Tool(id, name, "", index, false)], order := table.order + [id]);
      var e := MakeEvent(ItemAdded(index, FunctionCall(id, id, name, "")));
      out := [e];
    }

    method AddArguments(id: string, fragment: string) returns (ok: bool, out: seq<Event>)
      requires id in table.byId
      modifies this`sink, this`table
      ensures Outcome(Fields(), out, ok) == Steps.AddArguments(old(Fields()), id, fragment)
    {
      table := table.(active := id);
      var delta := fragment;
      if delta != "" {
        var t := table.byId[id];
        if t.arguments <= delta { delta := delta[|t.arguments|..]; }
        if delta != "" {
          if |t.arguments| + |delta| > maxToolBytes { return false, []; }
          table := table.(byId := table.byId[id := t.(arguments := t.arguments + delta)]);
          var e := MakeEvent(ArgumentsDelta("", id, Some(t.outputIndex), delta));
          return true, [e];
        }
      }
      return true, [];
    }

    method Finalize(valid: JsonTest) returns (ok: bool, out: seq<Event>)
      requires Valid()
      modifies this
      ensures Valid()
      ensures Outcome(Fields(), out, ok) == Steps.Finalize(old(Fields()), valid)
    {
      hide Steps.PrepareFinal, Steps.CloseTools, Steps.Terminate;
      if terminal { return true, []; }
      if head.stop == StopError { return false, []; }
      out := Prepare();
      var closing;
      ok, closing := CloseTools(valid);
      if !ok { return false, closing; }
      var last := Terminate();
      out := out + closing + [last];
    }

    method Terminate() returns (e: Event)
      modifies this`sink, this`terminal
      ensures Done(Fields(), [e]) == Steps.Terminate(old(Fields()))
      ensures table == old(table)
    {
      var output := CollectOutput();
      var reason := IncompleteReason(head.stop);
      var r := Response(head.responseId, Model(head), if reason == "" then "completed" else "incomplete", reason, "",
                        "",
                        output, head.usage);
      e := Event(sink.sequence, if r.status == "incomplete" then Incomplete(Some(r)) else Completed(Some(r)),
                 head.usage);
      sink := sink.(sequence := sink.sequence + 1);
      terminal := true;
    }

    method Prepare() returns (out: seq<Event>)
      modifies this`sink, this`head, this`thought
      ensures Done(Fields(), out) == PrepareFinal(old(Fields()))
    {
      out := Announce();
      var closing := FinishReasoning();
      if thought.index >= 0 {
        Store(thought.index, Reasoning("reasoning-0", [thought.text], thought.signature));
      }
      var closed := CloseText();
      out := out + closing + closed;
    }

    method CloseText() returns (out: seq<Event>)
      modifies this`sink
      ensures Done(Fields(), out) == Steps.CloseText(old(Fields()))
    {
      out := [];
      if prose.text != "" {
        Store(prose.index, TextItem(prose.text));
        var e := MakeEvent(ItemDone("", prose.index, TextItem(prose.text)));
        out := [e];
      }
    }

    method CloseTools(valid: JsonTest) returns (ok: bool, out: seq<Event>)
      requires Valid()
      modifies this`sink, this`table
      ensures Valid()
      ensures Outcome(Fields(), out, ok) == Steps.CloseTools(old(Fields()), |old(table).order|, valid)
    {
      hide Steps.CloseTool, Steps.CloseTools;
      ok, out := true, [];
      CloseNoTools(Fields(), valid);
      for i := 0 to |table.order|
        invariant table.order == old(table).order && Valid()
        invariant ok && Outcome(Fields(), out, ok) == Steps.CloseTools(old(Fields()), i, valid)
      {
        CloseNextTool(old(Fields()), i, valid);
        var closed, events := CloseTool(table.order[i], valid);
        if !closed {
          CloseToolsStop(old(Fields()), i + 1, |table.order|, valid);
          return false, events;
        }
        out := out + events;
      }
    }

    method CloseTool(id: string, valid: JsonTest) returns (ok: bool, out: seq<Event>)
      requires id in table.byId
      modifies this`sink, this`table
      ensures Outcome(Fields(), out, ok) == Steps.CloseTool(old(Fields()), id, valid)
      ensures table.order == old(table).order && table.byId.Keys == old(table).byId.Keys
    {
      var t := table.byId[id];
      if !valid(t.arguments) { return false, []; }
      var done := MakeEvent(ArgumentsDone("", id, Some(t.outputIndex), t.arguments));
      var item := FunctionCall(id, id, t.name, t.arguments);
      Store(t.outputIndex, item);
      var itemDone := MakeEvent(ItemDone("", t.outputIndex, item));
      table := table.(byId := table.byId[id := t.(done := true)]);
      return true, [done, itemDone];
    }

    method CollectOutput() returns (output: seq<Item>)
      ensures output == Collect(sink.items, sink.next)
    {
      output := [];
      for index := 0 to sink.next
        invariant output == Collect(sink.items, index)
      {
        if index in sink.items { output := output + [sink.items[index]]; }
      }
    }
  }
}
