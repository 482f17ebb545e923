/**
 What a canonical event stream says, independently of who produced it.

 A Log is the reading of a stream prefix: the text and thinking delivered so far
 and the output items in the order of their indexes. Advance accepts exactly the
 events that may come next, so a stream that Feed accepts to the end is one whose
 deltas, item announcements and terminal response all tell the same story.
 */
module StreamProtocol {
  import opened Basics
  import opened CanonicalEvents

  datatype Draft = ThinkingDraft | TextDraft | ToolDraft(id: string, name: string, arguments: string)

  datatype Log = Log(
    started: bool, id: string, thinking: string, text: string,
    items: seq<Draft>, thinkingAt: Option<nat>, textAt: Option<nat>,
    reasoning: Option<Item>, messageClosed: bool, argsClosed: nat, itemsClosed: nat, final: Option<Response>)

  const EMPTY_LOG := Log(false, "", "", "", [], None, None, None, false, 0, 0, None)

  /** The output indexes of the tools, in order. */
  function ToolPositions(items: seq<Draft>): (ps: seq<nat>)
    ensures forall i :: 0 <= i < |ps| ==> ps[i] < |items| && items[ps[i]].ToolDraft?
    ensures forall i, j :: 0 <= i < j < |ps| ==> ps[i] < ps[j]
    ensures forall p :: 0 <= p < |items| && items[p].ToolDraft? ==> p in ps
  {
    if items == [] then []
    else ToolPositions(items[..|items| - 1]) + if items[|items| - 1].ToolDraft? then [|items| - 1] else []
  }

  /** The tools, in the order of their indexes. */
  function ToolDrafts(items: seq<Draft>): (ds: seq<Draft>)
    ensures |ds| == |ToolPositions(items)|
    ensures forall i :: 0 <= i < |ds| ==> ds[i].ToolDraft?
  {
    var ps := ToolPositions(items);
    seq(|ps|, i requires 0 <= i < |ps| => items[ps[i]])
  }

  function Ids(tools: seq<Draft>): seq<string>
    requires forall i :: 0 <= i < |tools| ==> tools[i].ToolDraft?
  {
    seq(|tools|, i requires 0 <= i < |tools| => tools[i].id)
  }

  function ToolCount(l: Log): nat {
    |ToolPositions(l.items)|
  }

  predicate HasTool(items: seq<Draft>, id: string) {
    exists p :: 0 <= p < |items| && items[p].ToolDraft? && items[p].id == id
  }

  predicate IsToolAt(l: Log, p: int) {
    0 <= p < |l.items| && l.items[p].ToolDraft?
  }

  function FinalText(text: string): seq<Part> {
    [Part(OutputText, text, "")]
  }

  /** The finished form of an output item. */
  function Render(l: Log, d: Draft): Item {
    match d
    case ThinkingDraft => if l.reasoning.Some? then l.reasoning.value else OtherItem
    case TextDraft => Message("message-0", FinalText(l.text))
    case ToolDraft(id, name, arguments) => FunctionCall(id, id, name, arguments)
  }

  function Rendered(l: Log): seq<Item> {
    seq(|l.items|, p requires 0 <= p < |l.items| => Render(l, l.items[p]))
  }

  predicate Live(l: Log) {
    l.started && l.final.None?
  }

  predicate Growing(l: Log) {
    Live(l) && !l.messageClosed && l.argsClosed == 0
  }

  predicate ReasoningSettled(l: Log) {
    l.thinkingAt.Some? ==> l.reasoning.Some?
  }

  function GrowThinking(l: Log, delta: string): Option<Log> {
    if !Growing(l) || l.reasoning.Some? || delta == "" then None
    else if l.thinkingAt.Some? then Some(l.(thinking := l.thinking + delta))
    else Some(l.(thinking := l.thinking + delta, thinkingAt := Some(|l.items|), items := l.items + [ThinkingDraft]))
  }

  function GrowText(l: Log, delta: string): Option<Log> {
    if !Growing(l) || !ReasoningSettled(l) || delta == "" then None
    else if l.textAt.Some? then Some(l.(text := l.text + delta))
    else Some(l.(text := l.text + delta, textAt := Some(|l.items|), items := l.items + [TextDraft]))
  }

  function GrowTools(l: Log, index: int, item: Item): Option<Log> {
    if Growing(l) && index == |l.items| && item.FunctionCall? && item.callId == item.id != "" && item.arguments == ""
      && !HasTool(l.items, item.id)
    then Some(l.(items := l.items + [ToolDraft(item.id, item.name, "")])) else None
  }

  function GrowArguments(l: Log, id: string, index: Option<int>, delta: string): Option<Log> {
    if Growing(l) && index.Some? && IsToolAt(l, index.value) && l.items[index.value].id == id && delta != "" then
      var d := l.items[index.value];
      Some(l.(items := l.items[index.value := d.(arguments := d.arguments + delta)]))
    else None
  }

  /** The index of the next tool to close, while every closed tool is closed entirely. */
  predicate ClosesArguments(l: Log, id: string, index: Option<int>, arguments: string) {
    && Live(l) && ReasoningSettled(l) && (l.textAt.Some? ==> l.messageClosed)
    && l.argsClosed == l.itemsClosed < ToolCount(l)
    && index == Some(ToolPositions(l.items)[l.argsClosed])
    && l.items[index.value].id == id && l.items[index.value].arguments == arguments != ""
  }

  function CloseItem(l: Log, index: int, item: Item): Option<Log> {
    match item
    case Reasoning(_, summary, _) =>
      if Growing(l) && l.reasoning.None? && l.thinkingAt == Some(index) && summary == [l.thinking]
      then Some(l.(reasoning := Some(item))) else None
    case Message(_, _) =>
      if Growing(l) && ReasoningSettled(l) && l.textAt == Some(index) && item == Render(l, TextDraft)
      then Some(l.(messageClosed := true)) else None
    case FunctionCall(_, _, _, _) =>
      if Live(l) && l.itemsClosed < l.argsClosed <= ToolCount(l) && index == ToolPositions(l.items)[l.itemsClosed]
        && item == Render(l, l.items[index])
      then Some(l.(itemsClosed := l.itemsClosed + 1)) else None
    case OtherItem => None
  }

  function Conclude(l: Log, response: Option<Response>): Option<Log> {
    if Live(l) && ReasoningSettled(l) && (l.textAt.Some? ==> l.messageClosed)
      && l.argsClosed == l.itemsClosed == ToolCount(l)
       && response.Some? && response.value.id == l.id && response.value.output == Rendered(l)
    then Some(l.(final := response)) else None
  }

  predicate AddsTool(b: Body) {
    b.ItemAdded? && b.item.FunctionCall?
  }

  predicate FinishesItem(b: Body) {
    b.ItemDone? && !b.item.OtherItem?
  }

  /** What both translators ignore may stand anywhere inside a response. */
  function PassOver(l: Log): Option<Log> {
    if Live(l) then Some(l) else None
  }

  function Advance(l: Log, b: Body): Option<Log> {
    match b
    case Created(id, _) => if l.started then None else Some(l.(started := true, id := id))
    case ReasoningDelta(delta) => GrowThinking(l, delta)
    case TextDelta(delta) => GrowText(l, delta)
    case RefusalDelta(_) => None
    case ItemAdded(index, item) => if AddsTool(b) then GrowTools(l, index, item) else PassOver(l)
    case ArgumentsDelta(callId, id, index, delta) => if callId == "" then GrowArguments(l, id, index, delta) else None
    case ArgumentsDone(callId, id, index, arguments) =>
      if callId == "" && ClosesArguments(l, id, index, arguments) then Some(l.(argsClosed := l.argsClosed + 1))
      else None
    case ItemDone(callId, index, item) =>
      if !FinishesItem(b) then PassOver(l) else if callId == "" then CloseItem(l, index, item) else None
    case Completed(r) => Conclude(l, r)
    case Incomplete(r) => Conclude(l, r)
    case OtherEvent => PassOver(l)
  }

  /** The log after a whole stream, or None when some event is out of place. */
  function Feed(l: Log, bodies: seq<Body>): Option<Log> {
    if bodies == [] then Some(l)
    else
      var most := Feed(l, bodies[..|bodies| - 1]);
      if most.None? then None else Advance(most.value, bodies[|bodies| - 1])
  }

  /** Streams accepted from the empty log through their terminal response. */
  predicate Conforms(bodies: seq<Body>) {
    var l := Feed(EMPTY_LOG, bodies);
    l.Some? && l.value.final.Some?
  }

  /** The thinking and text markers stand exactly where the log says. */
  ghost predicate MarkersConsistent(l: Log) {
    && (forall p :: 0 <= p < |l.items| && l.items[p].ThinkingDraft? ==> l.thinkingAt == Some(p))
    && (forall p :: 0 <= p < |l.items| && l.items[p].TextDraft? ==> l.textAt == Some(p))
    && (l.thinkingAt.Some? ==> l.thinkingAt.value < |l.items| && l.items[l.thinkingAt.value].ThinkingDraft?)
    && (l.textAt.Some? ==> l.textAt.value < |l.items| && l.items[l.textAt.value].TextDraft?)
    && (l.thinkingAt.Some? <==> l.thinking != "") && (l.textAt.Some? <==> l.text != "")
    && (l.reasoning.Some?
        ==> l.thinkingAt.Some? && l.reasoning.value.Reasoning? && l.reasoning.value.summary == [l.thinking])
  }

  /** Tools are told apart by their ids. */
  ghost predicate ToolsDistinct(items: seq<Draft>) {
    && (forall p :: 0 <= p < |items| && items[p].ToolDraft? ==> items[p].id != "")
    && (forall p, q :: 0 <= p < q < |items| && items[p].ToolDraft? && items[q].ToolDraft? ==>
         items[p].id != items[q].id)
  }

  /** Tools are closed in order, each entirely before the next, and only with arguments. */
  ghost predicate ClosingConsistent(l: Log) {
    && l.itemsClosed <= l.argsClosed <= l.itemsClosed + 1 && l.argsClosed <= ToolCount(l)
    && (l.messageClosed ==> l.text != "") && (l.argsClosed > 0 ==> l.text != "" ==> l.messageClosed)
    && (forall i :: 0 <= i < l.argsClosed ==> l.items[ToolPositions(l.items)[i]].arguments != "")
  }

  /** What every reachable log satisfies. */
  ghost predicate Consistent(l: Log) {
    MarkersConsistent(l) && ToolsDistinct(l.items) && ClosingConsistent(l)
  }

  lemma {:induction false} PositionsKept(items: seq<Draft>, p: nat, d: Draft)
    requires p < |items| && items[p].ToolDraft? == d.ToolDraft?
    ensures ToolPositions(items[p := d]) == ToolPositions(items)
  {
    var last := |items| - 1;
    if p < last {
      assert items[p := d][..last] == items[..last][p := d];
      PositionsKept(items[..last], p, d);
    } else {
      assert items[p := d][..last] == items[..last];
    }
  }

  lemma PositionsAppend(items: seq<Draft>, d: Draft)
    ensures ToolPositions(items + [d]) == if d.ToolDraft? then ToolPositions(items) + [|items|]
            else ToolPositions(items)
  {
    var more := items + [d];
    assert more[..|more| - 1] == items && more[|more| - 1] == d;
  }

  lemma DraftsAppend(items: seq<Draft>, d: Draft)
    ensures ToolDrafts(items + [d]) == if d.ToolDraft? then ToolDrafts(items) + [d] else ToolDrafts(items)
  {
    PositionsAppend(items, d);
  }

  lemma DraftsKept(items: seq<Draft>, p: nat, d: Draft) returns (k: nat)
    requires p < |items| && items[p].ToolDraft? && d.ToolDraft?
    ensures k < |ToolPositions(items)| && ToolPositions(items)[k] == p && ToolDrafts(items)[k] == items[p]
    ensures ToolDrafts(items[p := d]) == ToolDrafts(items)[k := d]
  {
    var ps := ToolPositions(items);
    assert p in ps;
    k :| 0 <= k < |ps| && ps[k] == p;
    PositionsKept(items, p, d);
  }

  lemma MarkersGrow(l: Log, delta: string)
    requires MarkersConsistent(l)
    ensures GrowThinking(l, delta).Some? ==> MarkersConsistent(GrowThinking(l, delta).value)
    ensures GrowText(l, delta).Some? ==> MarkersConsistent(GrowText(l, delta).value)
  {
  }

  lemma MarkersKeptByTools(l: Log, id: string, index: int, item: Item, delta: string)
    requires MarkersConsistent(l)
    ensures GrowTools(l, index, item).Some? ==> MarkersConsistent(GrowTools(l, index, item).value)
    ensures GrowArguments(l, id, Some(index), delta).Some?
        ==> MarkersConsistent(GrowArguments(l, id, Some(index), delta).value)
  {
    hide HasTool;
  }

  lemma GrowArgumentsIndexed(l: Log, id: string, index: Option<int>, delta: string)
    ensures GrowArguments(l, id, index, delta).Some? ==> index.Some?
  {
  }

  lemma MarkersKeptByClosing(l: Log, index: int, item: Item)
    requires MarkersConsistent(l) && CloseItem(l, index, item).Some?
    ensures MarkersConsistent(CloseItem(l, index, item).value)
  {
    hide ToolPositions, Render;
  }

  lemma MarkersKept(l: Log, b: Body)
    requires MarkersConsistent(l) && Advance(l, b).Some?
    ensures MarkersConsistent(Advance(l, b).value)
  {
    hide ToolPositions, Render, Rendered, ClosesArguments, CloseItem, GrowThinking, GrowText, GrowTools, GrowArguments;
    match b {
      case ReasoningDelta(delta) => MarkersGrow(l, delta);
      case TextDelta(delta) => MarkersGrow(l, delta);
      case ItemAdded(index, item) => if AddsTool(b) { MarkersKeptByTools(l, "", index, item, ""); }
      case ArgumentsDelta(_, id, index, delta) =>
        GrowArgumentsIndexed(l, id, index, delta);
        MarkersKeptByTools(l, id, index.value, OtherItem, delta);
      case ItemDone(_, index, item) => if FinishesItem(b) { MarkersKeptByClosing(l, index, item); }
      case _ =>
    }
  }

  lemma DistinctKept(l: Log, b: Body)
    requires ToolsDistinct(l.items) && Advance(l, b).Some?
    ensures ToolsDistinct(Advance(l, b).value.items)
  {
    hide ToolPositions;
  }

  lemma ClosesKept(l: Log, id: string, index: Option<int>, arguments: string)
    requires ClosingConsistent(l) && MarkersConsistent(l) && ClosesArguments(l, id, index, arguments)
    ensures ClosingConsistent(l.(argsClosed := l.argsClosed + 1))
  {
    hide ToolPositions;
  }

  lemma CloseItemKept(l: Log, index: int, item: Item)
    requires ClosingConsistent(l) && MarkersConsistent(l) && CloseItem(l, index, item).Some?
    ensures ClosingConsistent(CloseItem(l, index, item).value)
  {
    hide ToolPositions, Render;
  }

  lemma ClosingKept(l: Log, b: Body)
    requires Consistent(l) && Advance(l, b).Some?
    ensures ClosingConsistent(Advance(l, b).value)
  {
    hide ToolPositions, ToolsDistinct, HasTool, Rendered, GrowThinking, GrowText, GrowTools, GrowArguments,
         ClosesArguments, CloseItem;
    match b {
      case ReasoningDelta(delta) => GrowingOpen(l, delta, "", None, 0, OtherItem);
      case TextDelta(delta) => GrowingOpen(l, delta, "", None, 0, OtherItem);
      case ItemAdded(index, item) => GrowingOpen(l, "", "", None, index, item);
      case ArgumentsDelta(_, id, index, delta) => GrowingOpen(l, delta, id, index, 0, OtherItem);
      case ArgumentsDone(_, id, index, arguments) => ClosesKept(l, id, index, arguments);
      case ItemDone(_, index, item) => if FinishesItem(b) { CloseItemKept(l, index, item); }
      case _ =>
    }
  }

  /** While the response grows no tool is closed, nor the message. */
  lemma GrowingOpen(l: Log, delta: string, id: string, index: Option<int>, at: int, item: Item)
    requires Consistent(l)
    ensures GrowThinking(l, delta).Some? ==> ClosingConsistent(GrowThinking(l, delta).value)
    ensures GrowText(l, delta).Some? ==> ClosingConsistent(GrowText(l, delta).value)
    ensures GrowTools(l, at, item).Some? ==> ClosingConsistent(GrowTools(l, at, item).value)
    ensures GrowArguments(l, id, index, delta).Some? ==> ClosingConsistent(GrowArguments(l, id, index, delta).value)
  {
    hide ToolPositions, ToolsDistinct, MarkersConsistent, HasTool;
  }

  lemma AdvanceConsistent(l: Log, b: Body)
    requires Consistent(l) && Advance(l, b).Some?
    ensures Consistent(Advance(l, b).value)
  {
    hide Advance, MarkersConsistent, ToolsDistinct, ClosingConsistent;
    MarkersKept(l, b);
    DistinctKept(l, b);
    ClosingKept(l, b);
  }

  lemma {:induction false} FeedConsistent(bodies: seq<Body>)
    requires Feed(EMPTY_LOG, bodies).Some?
    ensures Consistent(Feed(EMPTY_LOG, bodies).value)
  {
    hide Advance, Consistent;
    if bodies == [] {
      EmptyConsistent();
    } else {
      FeedConsistent(bodies[..|bodies| - 1]);
      AdvanceConsistent(Feed(EMPTY_LOG, bodies[..|bodies| - 1]).value, bodies[|bodies| - 1]);
    }
  }

  lemma EmptyConsistent()
    ensures Consistent(EMPTY_LOG)
  {
  }

  lemma {:induction false} FeedAppend(l: Log, xs: seq<Body>, ys: seq<Body>)
    requires Feed(l, xs).Some?
    ensures Feed(l, xs + ys) == Feed(Feed(l, xs).value, ys)
  {
    hide Advance;
    if ys == [] {
      assert xs + ys == xs;
    } else {
      var most := ys[..|ys| - 1];
      FeedAppend(l, xs, most);
      assert (xs + ys)[..|xs + ys| - 1] == xs + most;
    }
  }

  lemma FeedOne(l: Log, b: Body)
    ensures Feed(l, [b]) == Advance(l, b)
  {
    hide Advance;
    assert [b][..0] == [];
    assert Feed(l, [b][..0]) == Some(l);
  }

  lemma FeedTwo(l: Log, a: Body, b: Body)
    requires Advance(l, a).Some?
    ensures Feed(l, [a, b]) == Advance(Advance(l, a).value, b)
  {
    hide Advance;
    FeedOne(l, a);
    assert [a, b][..1] == [a];
  }

  lemma TerminalFound(bodies: seq<Body>)
    requires bodies != [] && CarriesResponse(bodies[|bodies| - 1])
    ensures TerminalResponse(bodies) == bodies[|bodies| - 1].response
  {
  }

  lemma SameRendering(l: Log, response: Option<Response>)
    ensures Rendered(l.(final := response)) == Rendered(l)
  {
  }

  lemma LastConcludes(l: Log, b: Body, before: seq<Body>)
    requires Feed(EMPTY_LOG, before) == Some(l) && Advance(l, b).Some? && Advance(l, b).value.final.Some?
    ensures IsTerminal(b) && Advance(l, b) == Conclude(l, b.response)
  {
    hide Rendered, ToolPositions, Feed;
    NotFinalTwice(before);
  }

  lemma NotFinalTwice(before: seq<Body>)
    requires Feed(EMPTY_LOG, before).Some?
    ensures Feed(EMPTY_LOG, before).value.final.Some? ==> Feed(EMPTY_LOG, before).value.started
  {
    hide Rendered, ToolPositions, HasTool;
  }
}
