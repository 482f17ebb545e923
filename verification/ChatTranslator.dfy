/**
 The Chat Completions translator: one function answers from the terminal event
 alone, the other is a state machine that emits a chunk per event, and a client
 folds the chunks. For every conforming stream the two answers agree.
 */
module ChatSteps {
  import opened Basics
  import opened CanonicalEvents

  type Names = map<string, string>

  datatype ToolDelta = Announce(index: int, id: string, name: string, arguments: string) | Fragment(index: int,
        arguments: string)

  datatype Delta = Delta(role: Option<string>, content: Option<string>, reasoning: Option<string>,
        tools: seq<ToolDelta>)

  datatype ChatUsage = ChatUsage(prompt: int, completion: int, total: int, cached: Option<int>, reasoning: Option<int>)

  datatype Chunk = Chunk(id: string, model: string, delta: Delta, finish: Option<string>, usage: Option<ChatUsage>)

  datatype ChatCall = ChatCall(id: string, name: string, arguments: string)

  datatype Completion = Completion(
    id: string, model: string, content: string, reasoning: string, calls: seq<ChatCall>, finish: string,
        usage: ChatUsage)

  datatype ChatState = ChatState(
    id: string, model: string, functionIndex: int, functionIndexes: map<string, int>, outputFunctionIndexes: map<int,
        int>,
    argumentsSeen: set<int>, hasClientTool: bool, textSeen: bool)

  const EMPTY_DELTA := Delta(None, None, None, [])

  function InitialChat(model: string): ChatState {
    ChatState("", model, -1, map[], map[], {}, false, false)
  }

  function ChatUsageOf(r: Response): ChatUsage {
    var u := ReportedUsage(r);
    ChatUsage(u.input, u.output, u.total, if u.cached > 0 then Some(u.cached) else None,
              if u.reasoning > 0 then Some(u.reasoning) else None)
  }

  // ----- The answer from the terminal event alone -----

  function PartsText(parts: seq<Part>): string {
    if parts == [] then ""
    else PartsText(parts[..|parts| - 1]) + if parts[|parts| - 1].kind.OutputText? then parts[|parts| - 1].text else ""
  }

  function TextOf(output: seq<Item>): string {
    if output == [] then ""
    else
      var last := output[|output| - 1];
      TextOf(output[..|output| - 1]) + if last.Message? then PartsText(last.content) else ""
  }

  function ReasoningOf(output: seq<Item>): string {
    if output == [] then ""
    else
      var last := output[|output| - 1];
      ReasoningOf(output[..|output| - 1]) + if last.Reasoning? then Joined(last.summary) else ""
  }

  function CallsOf(output: seq<Item>, names: Names): seq<ChatCall> {
    if output == [] then []
    else
      var last := output[|output| - 1];
      CallsOf(output[..|output| - 1], names)
        + if last.FunctionCall? then [ChatCall(last.callId, ClientName(names, last.name), last.arguments)] else []
  }

  function ChatResponse(model: string, events: seq<Body>, names: Names): Option<Completion> {
    var found := TerminalResponse(events);
    if found.None? then None
    else
      var r := found.value;
      var calls := CallsOf(r.output, names);
      Some(Completion(r.id, if r.model != "" then r.model else model, TextOf(r.output), ReasoningOf(r.output), calls,
                      ChatStopReason(r, |calls| > 0), ChatUsageOf(r)))
  }

  // ----- The state machine -----

  datatype Emission = Emission(state: ChatState, chunk: Option<Chunk>)

  function Silent(s: ChatState): Emission {
    Emission(s, None)
  }

  function Speak(s: ChatState, delta: Delta): Emission {
    Emission(s, Some(Chunk(s.id, s.model, delta, None, None)))
  }

  /** The client index of the tool an event talks about: by call id when it has one, else by output index. */
  function ChatFunctionIndex(s: ChatState, callId: string, outputIndex: int): Option<int> {
    if callId != "" then if callId in s.functionIndexes then Some(s.functionIndexes[callId]) else None
    else if outputIndex in s.outputFunctionIndexes then Some(s.outputFunctionIndexes[outputIndex]) else None
  }

  /** A missing output index reads as 0. */
  function IndexOr0(index: Option<int>): int {
    if index.Some? then index.value else 0
  }

  function AnnounceFunction(s: ChatState, item: Item, outputIndex: int, arguments: string, names: Names): Emission
    requires item.FunctionCall?
  {
    var index := s.functionIndex + 1;
    var key := if item.callId == "" then item.id else item.callId;
    var s := s.(functionIndex := index, hasClientTool := true,
                functionIndexes := if key != "" then s.functionIndexes[key := index] else s.functionIndexes,
                outputFunctionIndexes := s.outputFunctionIndexes[outputIndex := index]);
    Speak(s, Delta(Some("assistant"), None, None, [Announce(index, key, ClientName(names, item.name), arguments)]))
  }

  function MessageDone(s: ChatState, content: seq<Part>): Emission {
    var text := PartsText(content);
    if s.textSeen || text == "" then Silent(s)
    else Speak(s.(textSeen := true), Delta(Some("assistant"), Some(text), None, []))
  }

  function FunctionArguments(s: ChatState, callId: string, index: Option<int>, arguments: string,
        done: bool): Emission {
    var found := ChatFunctionIndex(s, callId, IndexOr0(index));
    if found.None? || (done && found.value in s.argumentsSeen) then Silent(s)
    else Speak(if done then s else s.(argumentsSeen := s.argumentsSeen + {found.value}),
               Delta(None, None, None, [Fragment(found.value, arguments)]))
  }

  function Finish(s: ChatState, r: Response): Emission {
    Emission(s, Some(Chunk(s.id, s.model, EMPTY_DELTA, Some(ChatStopReason(r, s.hasClientTool)), Some(ChatUsageOf(r)))))
  }

  function ChatStream(s: ChatState, b: Body, names: Names): Emission {
    match b
    case Created(id, model) => Silent(s.(id := id, model := if model != "" then model else s.model))
    case TextDelta(delta) => Speak(s.(textSeen := true), Delta(Some("assistant"), Some(delta), None, []))
    case ReasoningDelta(delta) => Speak(s, Delta(Some("assistant"), None, Some(delta), []))
    case ItemAdded(index, item) => if item.FunctionCall? then AnnounceFunction(s, item, index, "", names) else Silent(s)
    case ArgumentsDelta(callId, _, index, delta) => FunctionArguments(s, callId, index, delta, false)
    case ArgumentsDone(callId, _, index, arguments) => FunctionArguments(s, callId, index, arguments, true)
    case ItemDone(callId, index, item) =>
      if item.Message? then MessageDone(s, item.content)
      else if item.FunctionCall? && ChatFunctionIndex(s, callId, index).None?
      then AnnounceFunction(s, item, index, item.arguments, names)
      else Silent(s)
    case Completed(_) => Finish(s, ResponseOf(b))
    case Incomplete(_) => Finish(s, ResponseOf(b))
    case _ => Silent(s)
  }

  // ----- The client -----

  datatype Client = Client(
    id: Option<string>, content: string, reasoning: string, calls: seq<ChatCall>, finish: Option<string>,
        usage: Option<ChatUsage>)

  const NEW_CLIENT := Client(None, "", "", [], None, None)

  /** A tool delta either starts the next call or extends a started one; anything else is a broken stream. */
  function ReceiveTool(calls: seq<ChatCall>, d: ToolDelta): Option<seq<ChatCall>> {
    match d
    case Announce(index, id, name, arguments) =>
      if index == |calls| then Some(calls + [ChatCall(id, name, arguments)]) else None
    case Fragment(index, arguments) =>
      if 0 <= index < |calls| then Some(calls[index := calls[index].(arguments := calls[index].arguments + arguments)])
      else None
  }

  function ReceiveTools(calls: seq<ChatCall>, deltas: seq<ToolDelta>): Option<seq<ChatCall>>
    decreases deltas
  {
    if deltas == [] then Some(calls)
    else
      var first := ReceiveTool(calls, deltas[0]);
      if first.None? then None else ReceiveTools(first.value, deltas[1..])
  }

  /**
   Folds one chunk; None when the id changes, a tool index is out of order, or the completion has already finished.
   */
  function Receive(c: Client, k: Chunk): Option<Client> {
    var calls := ReceiveTools(c.calls, k.delta.tools);
    if c.finish.Some? || (c.id.Some? && c.id.value != k.id) || calls.None? then None
    else Some(Client(Some(k.id),
                     c.content + (if k.delta.content.Some? then k.delta.content.value else ""),
                     c.reasoning + (if k.delta.reasoning.Some? then k.delta.reasoning.value else ""),
                     calls.value, k.finish, k.usage))
  }

  datatype Session = Session(state: ChatState, client: Client)

  /**
   The translator's state and what its client has, after a stream prefix; None when the client saw a broken stream.
   */
  function Converse(model: string, events: seq<Body>, names: Names): Option<Session> {
    if events == [] then Some(Session(InitialChat(model), NEW_CLIENT))
    else
      var most := Converse(model, events[..|events| - 1], names);
      if most.None? then None else Exchange(most.value, events[|events| - 1], names)
  }

  function Exchange(x: Session, b: Body, names: Names): Option<Session> {
    var e := ChatStream(x.state, b, names);
    if e.chunk.None? then Some(Session(e.state, x.client))
    else
      var client := Receive(x.client, e.chunk.value);
      if client.None? then None else Some(Session(e.state, client.value))
  }
}

/** The translator object and the non-streaming answer, proved against the functions above. */
module ChatTranslator {
  import opened Basics
  import opened CanonicalEvents
  import opened Steps = ChatSteps

  class StreamState {
    var id: string
    var model: string
    var functionIndex: int
    var functionIndexes: map<string, int>
    var outputFunctionIndexes: map<int, int>
    var functionArgumentsSeen: set<int>
    var hasClientTool: bool
    var textSeen: bool

    function Fields(): ChatState
      reads this
    {
      ChatState(id, model, functionIndex, functionIndexes, outputFunctionIndexes, functionArgumentsSeen, hasClientTool,
                textSeen)
    }

    constructor (model: string)
      ensures Fields() == InitialChat(model)
    {
      id, this.model, functionIndex, hasClientTool, textSeen := "", model, -1, false, false;
      functionIndexes, outputFunctionIndexes, functionArgumentsSeen := map[], map[], {};
    }

    method AnnounceChatFunction(item: Item, outputIndex: int, arguments: string, names: Names) returns (delta: Delta)
      requires item.FunctionCall?
      modifies this
      ensures Speak(Fields(), delta) == AnnounceFunction(old(Fields()), item, outputIndex, arguments, names)
    {
      functionIndex := functionIndex + 1;
      hasClientTool := true;
      var key := item.callId;
      if key == "" { key := item.id; }
      if key != "" { functionIndexes := functionIndexes[key := functionIndex]; }
      outputFunctionIndexes := outputFunctionIndexes[outputIndex := functionIndex];
      delta := Delta(Some("assistant"), None, None,
                     [Announce(functionIndex, key, ClientName(names, item.name), arguments)]);
    }

    method Stream(b: Body, names: Names) returns (chunk: Option<Chunk>)
      modifies this
      ensures Emission(Fields(), chunk) == ChatStream(old(Fields()), b, names)
    {
      hide Steps.AnnounceFunction;
      var delta := EMPTY_DELTA;
      match b {
        case Created(newId, newModel) =>
          id := newId;
          if newModel != "" { model := newModel; }
          return None;
        case TextDelta(text) =>
          textSeen := true;
          delta := Delta(Some("assistant"), Some(text), None, []);
        case ReasoningDelta(text) =>
          delta := Delta(Some("assistant"), None, Some(text), []);
        case ItemAdded(outputIndex, item) =>
          if !item.FunctionCall? { return None; }
          delta := AnnounceChatFunction(item, outputIndex, "", names);
        case ArgumentsDelta(callId, _, outputIndex, text) =>
          var index := ChatFunctionIndex(Fields(), callId, IndexOr0(outputIndex));
          if index.None? { return None; }
          functionArgumentsSeen := functionArgumentsSeen + {index.value};
          delta := Delta(None, None, None, [Fragment(index.value, text)]);
        case ArgumentsDone(callId, _, outputIndex, text) =>
          var index := ChatFunctionIndex(Fields(), callId, IndexOr0(outputIndex));
          if index.None? || index.value in functionArgumentsSeen { return None; }
          delta := Delta(None, None, None, [Fragment(index.value, text)]);
        case ItemDone(callId, outputIndex, item) =>
          if item.Message? {
            if textSeen { return None; }
            var text := CollectText(item.content);
            if text == "" { return None; }
            textSeen := true;
            delta := Delta(Some("assistant"), Some(text), None, []);
          } else if item.FunctionCall? {
            if ChatFunctionIndex(Fields(), callId, outputIndex).Some? { return None; }
            delta := AnnounceChatFunction(item, outputIndex, item.arguments, names);
          } else {
            return None;
          }
        case Completed(_) =>
          return Some(Chunk(id, model, delta, Some(ChatStopReason(ResponseOf(b), hasClientTool)),
                            Some(ChatUsageOf(ResponseOf(b)))));
        case Incomplete(_) =>
          return Some(Chunk(id, model, delta, Some(ChatStopReason(ResponseOf(b), hasClientTool)),
                            Some(ChatUsageOf(ResponseOf(b)))));
        case _ =>
          return None;
      }
      chunk := Some(Chunk(id, model, delta, None, None));
    }
  }

  method CollectText(parts: seq<Part>) returns (text: string)
    ensures text == PartsText(parts)
  {
    text := "";
    for i := 0 to |parts|
      invariant text == PartsText(parts[..i])
    {
      assert parts[..i + 1][..i] == parts[..i];
      if parts[i].kind.OutputText? { text := text + parts[i].text; }
    }
    assert parts[..|parts|] == parts;
  }

  method Respond(model: string, events: seq<Body>, names: Names) returns (answer: Option<Completion>)
    ensures answer == ChatResponse(model, events, names)
  {
    var found := FindTerminalResponse(events);
    if found.None? { return None; }
    var r := found.value;
    var text, reasoning, calls := "", "", [];
    for i := 0 to |r.output|
      invariant text == TextOf(r.output[..i])
      invariant reasoning == ReasoningOf(r.output[..i])
      invariant calls == CallsOf(r.output[..i], names)
    {
      assert r.output[..i + 1][..i] == r.output[..i];
      match r.output[i] {
        case Message(_, content) =>
          var more := CollectText(content);
          text := text + more;
        case Reasoning(_, summary, _) =>
          var more := CollectSummary(summary);
          reasoning := reasoning + more;
        case FunctionCall(callId, _, name, arguments) =>
          calls := calls + [ChatCall(callId, ClientName(names, name), arguments)];
        case OtherItem =>
      }
    }
    assert r.output[..|r.output|] == r.output;
    answer := Some(Completion(r.id, if r.model != "" then r.model else model, text, reasoning, calls,
                              ChatStopReason(r, |calls| > 0), ChatUsageOf(r)));
  }
}

/** Streaming equals non-streaming. */
module ChatAgreement {
  import opened Basics
  import opened CanonicalEvents
  import opened StreamProtocol
  import opened ChatSteps
  import MapperSteps
  import MapperConformance

  function CallOf(d: Draft, names: Names): ChatCall
    requires d.ToolDraft?
  {
    ChatCall(d.id, ClientName(names, d.name), d.arguments)
  }

  /** The client has the tools, in order. */
  ghost predicate CallsAgree(calls: seq<ChatCall>, tools: seq<Draft>, names: Names)
    requires forall k :: 0 <= k < |tools| ==> tools[k].ToolDraft?
  {
    |calls| == |tools| && forall k :: 0 <= k < |calls| ==> calls[k] == CallOf(tools[k], names)
  }

  /** The translator knows each tool by its place among the tools, and whether any arguments were sent. */
  ghost predicate IndexesAgree(s: ChatState, ps: seq<nat>, tools: seq<Draft>)
    requires |ps| == |tools| && forall k :: 0 <= k < |tools| ==> tools[k].ToolDraft?
  {
    && s.functionIndex == |ps| - 1 && (s.hasClientTool <==> |ps| > 0)
    && (forall p :: p in s.outputFunctionIndexes <==> p in ps)
    && (forall k :: 0 <= k < |ps| ==> s.outputFunctionIndexes[ps[k]] == k)
    && (forall k :: k in s.argumentsSeen <==> 0 <= k < |ps| && tools[k].arguments != "")
  }

  ghost predicate InStep(x: Session, l: Log, names: Names) {
    && (l.started ==> x.state.id == l.id) && (x.client.id.Some? ==> l.started && x.client.id.value == l.id)
    && x.client.content == l.text && x.client.reasoning == l.thinking && (x.state.textSeen <==> l.text != "")
    && (l.final.None? ==> x.client.finish.None?)
    && CallsAgree(x.client.calls, ToolDrafts(l.items), names)
    && IndexesAgree(x.state, ToolPositions(l.items), ToolDrafts(l.items))
  }

  lemma ReceiveOne(calls: seq<ChatCall>, d: ToolDelta)
    ensures ReceiveTools(calls, [d]) == ReceiveTool(calls, d)
    ensures ReceiveTools(calls, []) == Some(calls)
  {
    assert ReceiveTool(calls, d).Some? ==> ReceiveTools(ReceiveTool(calls, d).value, [d][1..]) == ReceiveTool(calls, d);
  }

  /** A spoken delta that the client accepts. */
  lemma ExchangeSpoken(x: Session, b: Body, names: Names, s: ChatState, d: Delta, calls: seq<ChatCall>)
    requires ChatStream(x.state, b, names) == Speak(s, d) && ReceiveTools(x.client.calls, d.tools) == Some(calls)
    requires x.client.finish.None? && (x.client.id.Some? ==> x.client.id.value == s.id)
    ensures Exchange(x, b, names) == Some(Session(s, Client(
              Some(s.id), x.client.content + (if d.content.Some? then d.content.value else ""),
              x.client.reasoning + (if d.reasoning.Some? then d.reasoning.value else ""), calls, None, None)))
  {
    hide ChatStream, ReceiveTools;
  }

  lemma AnnounceAgrees(s: ChatState, calls: seq<ChatCall>, ps: seq<nat>, tools: seq<Draft>, item: Item, p: nat,
        names: Names)
    requires |ps| == |tools| && (forall k :: 0 <= k < |tools| ==> tools[k].ToolDraft?) && p !in ps
    requires CallsAgree(calls, tools, names) && IndexesAgree(s, ps, tools)
    requires item.FunctionCall? && item.callId == item.id
    ensures var e := AnnounceFunction(s, item, p, "", names);
            e == Speak(e.state,
                       Delta(Some("assistant"), None, None,
                             [Announce(|calls|, item.id, ClientName(names, item.name), "")]))
            && e.state.id == s.id && e.state.textSeen == s.textSeen
    ensures var d := ToolDraft(item.id, item.name, "");
            CallsAgree(calls + [CallOf(d, names)], tools + [d], names)
            && IndexesAgree(AnnounceFunction(s, item, p, "", names).state, ps + [p], tools + [d])
  {
  }

  /** The client accepts the announcement of a new tool. */
  lemma AnnounceHeard(x: Session, ps: seq<nat>, tools: seq<Draft>, item: Item, p: nat, names: Names)
    requires |ps| == |tools| && (forall k :: 0 <= k < |tools| ==> tools[k].ToolDraft?) && p !in ps
    requires CallsAgree(x.client.calls, tools, names) && IndexesAgree(x.state, ps, tools)
    requires item.FunctionCall? && item.callId == item.id
    requires x.client.finish.None? && (x.client.id.Some? ==> x.client.id.value == x.state.id)
    ensures var y := Exchange(x, ItemAdded(p, item), names);
            var d := ToolDraft(item.id, item.name, "");
            && y.Some? && CallsAgree(y.value.client.calls, tools + [d], names)
            && IndexesAgree(y.value.state, ps + [p], tools + [d])
            && y.value.client
              == x.client.(id := Some(x.state.id), calls := y.value.client.calls, finish := None, usage := None)
            && y.value.state.id == x.state.id && y.value.state.textSeen == x.state.textSeen
  {
    hide IndexesAgree, CallsAgree, Exchange, ReceiveTools, AnnounceFunction, ClientName;
    AnnounceAgrees(x.state, x.client.calls, ps, tools, item, p, names);
    var spoken := Announce(|x.client.calls|, item.id, ClientName(names, item.name), "");
    ReceiveOne(x.client.calls, spoken);
    AnnounceReceived(x.client.calls, spoken, ToolDraft(item.id, item.name, ""), names);
    ExchangeSpoken(x, ItemAdded(p, item), names, AnnounceFunction(x.state, item, p, "", names).state,
                   Delta(Some("assistant"), None, None, [spoken]),
                       x.client.calls + [CallOf(ToolDraft(item.id, item.name, ""), names)]);
  }

  lemma AnnounceReceived(calls: seq<ChatCall>, spoken: ToolDelta, d: Draft, names: Names)
    requires d.ToolDraft? && d.arguments == "" && spoken == Announce(|calls|, d.id, ClientName(names, d.name), "")
    ensures ReceiveTool(calls, spoken) == Some(calls + [CallOf(d, names)])
  {
  }

  lemma AddInStep(x: Session, l: Log, item: Item, names: Names)
    requires InStep(x, l, names) && l.final.None? && l.started && item.FunctionCall? && item.callId == item.id
    ensures var y := Exchange(x, ItemAdded(|l.items|, item), names);
            y.Some? && InStep(y.value, l.(items := l.items + [ToolDraft(item.id, item.name, "")]), names)
  {
    hide ToolPositions, ToolDrafts, CallsAgree, IndexesAgree, Exchange;
    var d := ToolDraft(item.id, item.name, "");
    DraftsAppend(l.items, d);
    PositionsAppend(l.items, d);
    assert |l.items| !in ToolPositions(l.items);
    AnnounceHeard(x, ToolPositions(l.items), ToolDrafts(l.items), item, |l.items|, names);
  }

  lemma FragmentAgrees(s: ChatState, calls: seq<ChatCall>, ps: seq<nat>, tools: seq<Draft>, k: nat, delta: string,
        names: Names)
    requires |ps| == |tools| && (forall k :: 0 <= k < |tools| ==> tools[k].ToolDraft?)
    requires CallsAgree(calls, tools, names) && IndexesAgree(s, ps, tools) && k < |ps| && delta != ""
    ensures ps[k] in s.outputFunctionIndexes && s.outputFunctionIndexes[ps[k]] == k < |calls|
    ensures var d := tools[k].(arguments := tools[k].arguments + delta);
            CallsAgree(calls[k := calls[k].(arguments := calls[k].arguments + delta)], tools[k := d], names)
            && IndexesAgree(s.(argumentsSeen := s.argumentsSeen + {k}), ps, tools[k := d])
  {
  }

  /** A fragment is sent on under the index that its tool is known by. */
  lemma FragmentHeard(x: Session, id: string, p: int, delta: string, k: nat, names: Names)
    requires p in x.state.outputFunctionIndexes && x.state.outputFunctionIndexes[p] == k < |x.client.calls|
    requires x.client.finish.None? && (x.client.id.Some? ==> x.client.id.value == x.state.id)
    ensures Exchange(x, ArgumentsDelta("", id, Some(p), delta), names)
         == Some(Session(x.state.(argumentsSeen := x.state.argumentsSeen + {k}), Client(
                Some(x.state.id), x.client.content, x.client.reasoning,
                x.client.calls[k := x.client.calls[k].(arguments := x.client.calls[k].arguments + delta)], None, None)))
  {
    hide Exchange, ReceiveTools;
    var calls := x.client.calls;
    ReceiveOne(calls, Fragment(k, delta));
    ExchangeSpoken(x, ArgumentsDelta("", id, Some(p), delta), names,
                   x.state.(argumentsSeen := x.state.argumentsSeen + {k}),
                   Delta(None, None, None, [Fragment(k, delta)]),
                   calls[k := calls[k].(arguments := calls[k].arguments + delta)]);
    hide ChatStream, ReceiveTool;
    assert x.client.content + "" == x.client.content && x.client.reasoning + "" == x.client.reasoning;
  }

  lemma GrowInStep(x: Session, l: Log, id: string, index: Option<int>, delta: string, names: Names)
    requires InStep(x, l, names) && GrowArguments(l, id, index, delta).Some?
    ensures var y := Exchange(x, ArgumentsDelta("", id, index, delta), names);
            y.Some? && InStep(y.value, GrowArguments(l, id, index, delta).value, names)
  {
    hide ToolPositions, ToolDrafts, IndexesAgree, CallsAgree, Exchange;
    var grown := l.items[index.value].(arguments := l.items[index.value].arguments + delta);
    var k := DraftsKept(l.items, index.value, grown);
    PositionsKept(l.items, index.value, grown);
    FragmentAgrees(x.state, x.client.calls, ToolPositions(l.items), ToolDrafts(l.items), k, delta, names);
    FragmentHeard(x, id, index.value, delta, k, names);
  }

  lemma CloseArgumentsInStep(x: Session, l: Log, id: string, index: Option<int>, arguments: string, names: Names)
    requires InStep(x, l, names) && ClosesArguments(l, id, index, arguments)
    ensures ChatStream(x.state, ArgumentsDone("", id, index, arguments), names) == Silent(x.state)
  {
    assert ToolDrafts(l.items)[l.argsClosed] == l.items[ToolPositions(l.items)[l.argsClosed]];
    assert ToolPositions(l.items)[l.argsClosed] in x.state.outputFunctionIndexes;
    hide ToolPositions, ToolDrafts;
  }

  lemma CloseItemInStep(x: Session, l: Log, index: int, item: Item, names: Names)
    requires InStep(x, l, names) && Consistent(l) && CloseItem(l, index, item).Some?
    ensures ChatStream(x.state, ItemDone("", index, item), names) == Silent(x.state)
    ensures InStep(x, CloseItem(l, index, item).value, names)
  {
    hide ToolPositions;
    if item.FunctionCall? {
      assert index in ToolPositions(l.items);
    }
  }

  lemma FinishInStep(x: Session, l: Log, b: Body, names: Names)
    requires InStep(x, l, names) && IsTerminal(b) && Conclude(l, b.response).Some?
    ensures var y := Exchange(x, b, names);
            && y.Some? && InStep(y.value, Conclude(l, b.response).value, names)
            && y.value.client.id == Some(l.id)
            && y.value.client.finish == Some(ChatStopReason(b.response.value, ToolCount(l) > 0))
            && y.value.client.usage == Some(ChatUsageOf(b.response.value))
  {
    hide ToolPositions, Rendered;
  }

  lemma ThinkingInStep(x: Session, l: Log, delta: string, names: Names)
    requires InStep(x, l, names) && GrowThinking(l, delta).Some?
    ensures var y := Exchange(x, ReasoningDelta(delta), names);
            y.Some? && InStep(y.value, GrowThinking(l, delta).value, names)
  {
    hide CallsAgree, IndexesAgree, ToolPositions, ToolDrafts, Exchange;
    DraftsAppend(l.items, ThinkingDraft);
    PositionsAppend(l.items, ThinkingDraft);
    ReceiveNone(x.client.calls);
    ExchangeSpoken(x, ReasoningDelta(delta), names, x.state, Delta(Some("assistant"), None, Some(delta), []),
                   x.client.calls);
  }

  lemma TextInStep(x: Session, l: Log, delta: string, names: Names)
    requires InStep(x, l, names) && GrowText(l, delta).Some?
    ensures var y := Exchange(x, TextDelta(delta), names); y.Some? && InStep(y.value, GrowText(l, delta).value, names)
  {
    hide CallsAgree, IndexesAgree, ToolPositions, ToolDrafts, Exchange;
    DraftsAppend(l.items, TextDraft);
    PositionsAppend(l.items, TextDraft);
    SeenIgnored(x.state, ToolPositions(l.items), ToolDrafts(l.items));
    ReceiveNone(x.client.calls);
    ExchangeSpoken(x, TextDelta(delta), names, x.state.(textSeen := true),
                   Delta(Some("assistant"), Some(delta), None, []), x.client.calls);
  }

  lemma ReceiveNone(calls: seq<ChatCall>)
    ensures ReceiveTools(calls, []) == Some(calls)
  {
  }

  lemma SeenIgnored(s: ChatState, ps: seq<nat>, tools: seq<Draft>)
    requires |ps| == |tools| && forall k :: 0 <= k < |tools| ==> tools[k].ToolDraft?
    ensures IndexesAgree(s.(textSeen := true), ps, tools) == IndexesAgree(s, ps, tools)
  {
  }

  lemma GrowToolsSays(l: Log, index: int, item: Item)
    requires GrowTools(l, index, item).Some?
    ensures l.final.None? && l.started && index == |l.items| && item.FunctionCall? && item.callId == item.id
    ensures GrowTools(l, index, item) == Some(l.(items := l.items + [ToolDraft(item.id, item.name, "")]))
  {
  }

  lemma StepInStep(x: Session, l: Log, b: Body, names: Names)
    requires InStep(x, l, names) && Consistent(l) && Advance(l, b).Some?
    ensures var y := Exchange(x, b, names); y.Some? && InStep(y.value, Advance(l, b).value, names)
  {
    hide ToolPositions, GrowThinking, GrowText, GrowTools, GrowArguments, ClosesArguments, CloseItem, Conclude,
         Consistent, ChatStream, Receive;
    match b {
      case Created(_, _) => CreatedInStep(x, l, b, names);
      case ReasoningDelta(delta) => ThinkingInStep(x, l, delta, names);
      case TextDelta(delta) => TextInStep(x, l, delta, names);
      case ItemAdded(index, item) =>
        if AddsTool(b) {
          GrowToolsSays(l, index, item);
          AddInStep(x, l, item, names);
        } else {
          PassedInStep(x, b, names);
        }
      case ArgumentsDelta(_, id, index, delta) => GrowInStep(x, l, id, index, delta, names);
      case ArgumentsDone(_, id, index, arguments) => CloseArgumentsInStep(x, l, id, index, arguments, names);
      case ItemDone(_, index, item) =>
        if FinishesItem(b) {
          CloseItemInStep(x, l, index, item, names);
        } else {
          PassedInStep(x, b, names);
        }
      case OtherEvent => PassedInStep(x, b, names);
      case Completed(_) => FinishInStep(x, l, b, names);
      case Incomplete(_) => FinishInStep(x, l, b, names);
      case _ =>
    }
  }

  lemma PassedInStep(x: Session, b: Body, names: Names)
    requires b.OtherEvent? || (b.ItemAdded? && !AddsTool(b)) || (b.ItemDone? && !FinishesItem(b))
    ensures Exchange(x, b, names) == Some(x)
  {
  }

  lemma CreatedInStep(x: Session, l: Log, b: Body, names: Names)
    requires InStep(x, l, names) && b.Created? && Advance(l, b).Some?
    ensures var y := Exchange(x, b, names); y.Some? && InStep(y.value, Advance(l, b).value, names)
  {
    hide ToolPositions;
  }

  /** What one more item of the terminal output adds to the three folds. */
  lemma FoldsNext(l: Log, n: nat, names: Names)
    requires n < |l.items|
    ensures var item := Render(l, l.items[n]);
            var before, after := Rendered(l)[..n], Rendered(l)[..n + 1];
            && TextOf(after) == TextOf(before) + (if item.Message? then PartsText(item.content) else "")
            && ReasoningOf(after) == ReasoningOf(before) + (if item.Reasoning? then Joined(item.summary) else "")
            && CallsOf(after, names) == CallsOf(before, names)
                 + (if item.FunctionCall? then [ChatCall(item.callId, ClientName(names, item.name), item.arguments)]
                    else [])
  {
    hide Render, PartsText, Joined, ClientName;
    assert Rendered(l)[..n + 1][..n] == Rendered(l)[..n];
    assert Rendered(l)[..n + 1][n] == Render(l, l.items[n]);
  }

  lemma NoFolds(l: Log, names: Names)
    ensures TextOf(Rendered(l)[..0]) == "" && ReasoningOf(Rendered(l)[..0]) == ""
    ensures CallsOf(Rendered(l)[..0], names) == []
  {
  }

  /** Text and thinking are rendered where the log has marked them, and nowhere else. */
  lemma MarkedAlone(l: Log, p: nat)
    requires MarkersConsistent(l) && ReasoningSettled(l) && p < |l.items|
    ensures var item := Render(l, l.items[p]);
            && (if item.Message? then PartsText(item.content) else "") == (if l.textAt == Some(p) then l.text else "")
            && (if item.Reasoning? then Joined(item.summary) else "")
                 == (if l.thinkingAt == Some(p) then l.thinking else "")
  {
    hide PartsText, Joined, FinalText;
    RenderedSays(l);
  }

  /** The three folds over the terminal output give the log's text, thinking and tools. */
  lemma {:induction false} TextSays(l: Log, n: nat)
    requires MarkersConsistent(l) && ReasoningSettled(l) && n <= |l.items|
    ensures TextOf(Rendered(l)[..n]) == if l.textAt.Some? && l.textAt.value < n then l.text else ""
    ensures ReasoningOf(Rendered(l)[..n]) == if l.thinkingAt.Some? && l.thinkingAt.value < n then l.thinking else ""
  {
    hide TextOf, ReasoningOf, CallsOf, Rendered, Render, PartsText, Joined, MarkersConsistent, ReasoningSettled;
    RenderedLength(l);
    if n == 0 {
      NoFolds(l, map[]);
    } else {
      TextSays(l, n - 1);
      FoldsNext(l, n - 1, map[]);
      MarkedAlone(l, n - 1);
    }
  }

  lemma RenderedLength(l: Log)
    ensures |Rendered(l)| == |l.items|
  {
  }

  lemma {:induction false} CallsSay(l: Log, n: nat, names: Names)
    requires (l.reasoning.Some? ==> l.reasoning.value.Reasoning?) && n <= |l.items|
    ensures CallsAgree(CallsOf(Rendered(l)[..n], names), ToolDrafts(l.items[..n]), names)
  {
    hide TextOf, ReasoningOf, CallsOf, Rendered, ToolDrafts, CallsAgree, ClientName;
    RenderedLength(l);
    if n == 0 {
      NoFolds(l, names);
      assert l.items[..0] == [];
      NoCalls(names);
    } else {
      CallsSay(l, n - 1, names);
      FoldsNext(l, n - 1, names);
      var d := l.items[n - 1];
      RenderKind(l, d);
      DraftsAppend(l.items[..n - 1], d);
      assert l.items[..n - 1] + [d] == l.items[..n];
      if d.ToolDraft? {
        CallsAgreeMore(CallsOf(Rendered(l)[..n - 1], names), ToolDrafts(l.items[..n - 1]), d, names);
      } else {
        assert CallsOf(Rendered(l)[..n - 1], names) + [] == CallsOf(Rendered(l)[..n - 1], names);
      }
    }
  }

  lemma NoCalls(names: Names)
    ensures CallsAgree([], ToolDrafts([]), names)
  {
  }

  lemma CallsAgreeMore(calls: seq<ChatCall>, tools: seq<Draft>, d: Draft, names: Names)
    requires (forall k :: 0 <= k < |tools| ==> tools[k].ToolDraft?) && d.ToolDraft? && CallsAgree(calls, tools, names)
    ensures CallsAgree(calls + [CallOf(d, names)], tools + [d], names)
  {
  }

  lemma RenderKind(l: Log, d: Draft)
    requires l.reasoning.Some? ==> l.reasoning.value.Reasoning?
    ensures Render(l, d).FunctionCall? == d.ToolDraft?
  {
  }

  lemma RenderedSays(l: Log)
    ensures PartsText(FinalText(l.text)) == l.text && Joined([l.thinking]) == l.thinking
  {
    assert FinalText(l.text)[..0] == [] && [l.thinking][..0] == [];
    assert PartsText(FinalText(l.text)[..0]) == "" && Joined([l.thinking][..0]) == "";
  }

  lemma {:induction false} PrefixInStep(model: string, bodies: seq<Body>, names: Names)
    requires Feed(EMPTY_LOG, bodies).Some?
    ensures var x := Converse(model, bodies, names);
            x.Some? && InStep(x.value, Feed(EMPTY_LOG, bodies).value, names)
  {
    hide Advance, Exchange, Consistent;
    if bodies != [] {
      var most := bodies[..|bodies| - 1];
      PrefixInStep(model, most, names);
      FeedConsistent(most);
      StepInStep(Converse(model, most, names).value, Feed(EMPTY_LOG, most).value, bodies[|bodies| - 1], names);
    }
  }

  /** What both answers must share; the model name and the creation time may differ. */
  predicate SameAnswer(c: Client, r: Completion) {
    && c.id == Some(r.id) && c.content == r.content && c.reasoning == r.reasoning && c.calls == r.calls
    && c.finish == Some(r.finish) && c.usage == Some(r.usage)
  }

  lemma {:induction false} FinishedSession(model: string, bodies: seq<Body>, names: Names)
    requires Conforms(bodies)
    ensures bodies != [] && CarriesResponse(bodies[|bodies| - 1])
    ensures var x := Converse(model, bodies, names);
            var l := Feed(EMPTY_LOG, bodies).value;
            var r := bodies[|bodies| - 1].response.value;
            && x.Some? && InStep(x.value, l, names) && r.output == Rendered(l) && ReasoningSettled(l) && r.id == l.id
            && x.value.client.id == Some(l.id)
            && x.value.client.finish == Some(ChatStopReason(r, ToolCount(l) > 0))
            && x.value.client.usage == Some(ChatUsageOf(r))
  {
    hide InStep, Consistent, Exchange, Rendered;
    PrefixInStep(model, bodies, names);
    var most, last := bodies[..|bodies| - 1], bodies[|bodies| - 1];
    PrefixInStep(model, most, names);
    var l := Feed(EMPTY_LOG, most).value;
    LastConcludes(l, last, most);
    FinishInStep(Converse(model, most, names).value, l, last, names);
    SameRendering(l, last.response);
  }

  /** The non-streaming answer, read off the log. */
  lemma ResponseSays(model: string, bodies: seq<Body>, names: Names)
    requires Conforms(bodies) && bodies != [] && CarriesResponse(bodies[|bodies| - 1])
    requires var r := bodies[|bodies| - 1].response.value;
             var l := Feed(EMPTY_LOG, bodies).value; r.output == Rendered(l) && ReasoningSettled(l) && r.id == l.id
    ensures var r := bodies[|bodies| - 1].response.value;
            var l := Feed(EMPTY_LOG, bodies).value;
            var c := ChatResponse(model, bodies, names);
            && c.Some? && c.value.id == l.id && c.value.content == l.text && c.value.reasoning == l.thinking
            && CallsAgree(c.value.calls, ToolDrafts(l.items), names)
            && c.value.finish == ChatStopReason(r, |c.value.calls| > 0) && c.value.usage == ChatUsageOf(r)
  {
    hide Feed, TextOf, ReasoningOf, CallsOf, TerminalResponse, MarkersConsistent, ToolsDistinct, ClosingConsistent,
         ToolDrafts, CallsAgree, ChatStopReason;
    TerminalFound(bodies);
    FeedConsistent(bodies);
    var l := Feed(EMPTY_LOG, bodies).value;
    TextsComplete(l);
    TextSays(l, |l.items|);
    CallsSay(l, |l.items|, names);
    assert l.items[..|l.items|] == l.items && Rendered(l)[..|l.items|] == Rendered(l);
  }

  /**
   Streaming equals non-streaming, for every conforming stream: the client accepts every chunk, and ends with the id,
   content, reasoning, ordered tool calls, finish reason and usage of the non-streaming answer.
   */
  lemma StreamingAgrees(model: string, bodies: seq<Body>, names: Names)
    requires Conforms(bodies)
    ensures var x := Converse(model, bodies, names);
            var r := ChatResponse(model, bodies, names);
            x.Some? && r.Some? && SameAnswer(x.value.client, r.value)
  {
    FinishedSession(model, bodies, names);
    ResponseSays(model, bodies, names);
    hide Feed, Converse, ChatResponse;
    InStepSays(Converse(model, bodies, names).value, Feed(EMPTY_LOG, bodies).value,
               ChatResponse(model, bodies, names).value.calls, names);
  }

  lemma TextsComplete(l: Log)
    requires Consistent(l)
    ensures l.reasoning.Some? ==> l.reasoning.value.Reasoning?
    ensures l.textAt.Some? ==> l.textAt.value < |l.items|
    ensures l.textAt.None? ==> l.text == ""
    ensures l.thinkingAt.Some? ==> l.thinkingAt.value < |l.items|
    ensures l.thinkingAt.None? ==> l.thinking == ""
  {
  }

  lemma InStepSays(x: Session, l: Log, calls: seq<ChatCall>, names: Names)
    requires InStep(x, l, names) && CallsAgree(calls, ToolDrafts(l.items), names)
    ensures x.client.calls == calls && |calls| == ToolCount(l) && x.client.content == l.text
    ensures x.client.reasoning == l.thinking
  {
    hide ToolPositions;
  }

  /** Streaming equals non-streaming for every run the Devin mapper accepts. */
  lemma DevinRunsAgree(
      selected: string, id: string, limit: int, frames: seq<MapperSteps.Frame>, valid: MapperSteps.JsonTest,
      model: string, names: Names)
    requires MapperConformance.Run(MapperSteps.Initial(selected, id, limit), frames, valid).ok
    ensures var bodies := Bodies(MapperConformance.Run(MapperSteps.Initial(selected, id, limit), frames, valid).events);
            var x := Converse(model, bodies, names);
            var r := ChatResponse(model, bodies, names);
            x.Some? && r.Some? && SameAnswer(x.value.client, r.value)
  {
    hide MapperConformance.Run;
    MapperConformance.RunConforms(selected, id, limit, frames, valid);
    var o := MapperConformance.Run(MapperSteps.Initial(selected, id, limit), frames, valid);
    StreamingAgrees(model, Bodies(o.events), names);
  }
}
