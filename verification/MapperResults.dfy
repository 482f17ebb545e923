/**
 What a reader of the mapper's output can rely on, stated on the event list
 alone: numbering, framing, conservation of deltas, and how tool arguments
 accumulate.
 */
module MapperResults {
  import opened Basics
  import opened CanonicalEvents
  import opened StreamProtocol
  import opened FrameMeaning
  import opened MapperSteps
  import opened MapperConformance

  // ----- Framing: one opening event, one terminal event -----

  /** The stream opens once, ends once, and both ends name the same response. */
  ghost predicate Framed(bodies: seq<Body>) {
    && |bodies| >= 2 && bodies[0].Created? && CarriesResponse(bodies[|bodies| - 1])
    && (forall i :: 0 < i < |bodies| ==> !bodies[i].Created?)
    && (forall i :: 0 <= i < |bodies| - 1 ==> !IsTerminal(bodies[i]))
    && bodies[|bodies| - 1].response.value.id == bodies[0].id
  }

  lemma AdvanceShape(l: Log, b: Body)
    requires Advance(l, b).Some? && (l.final.Some? ==> l.started)
    ensures var n := Advance(l, b).value;
            && l.final.None? && n.started
            && (l.started ==> !b.Created? && n.id == l.id)
            && (!l.started ==> b.Created? && n.id == b.id)
            && (IsTerminal(b) <==> n.final.Some?) && (IsTerminal(b) ==> l.started)
            && (n.final.Some? ==> b.response == n.final && n.final.value.id == n.id)
            && (n.final.Some? ==> n.final.value.output == Rendered(n) && ReasoningSettled(n))
  {
    hide ToolPositions, HasTool;
    assert IsTerminal(b) ==> Rendered(Advance(l, b).value) == Rendered(l);
  }

  lemma {:induction false} PrefixFramed(bodies: seq<Body>)
    requires Feed(EMPTY_LOG, bodies).Some?
    ensures var l := Feed(EMPTY_LOG, bodies).value;
            && (l.started <==> bodies != [])
            && (bodies != [] ==> bodies[0].Created? && bodies[0].id == l.id)
            && (forall i :: 0 < i < |bodies| ==> !bodies[i].Created?)
            && (l.final.None? ==> forall i :: 0 <= i < |bodies| ==> !IsTerminal(bodies[i]))
            && (l.final.Some? ==> Framed(bodies) && bodies[|bodies| - 1].response == l.final)
            && (l.final.Some? ==> l.final.value.output == Rendered(l) && ReasoningSettled(l))
  {
    hide Advance, Rendered;
    if bodies != [] {
      var most := bodies[..|bodies| - 1];
      PrefixFramed(most);
      AdvanceShape(Feed(EMPTY_LOG, most).value, bodies[|bodies| - 1]);
    }
  }

  // ----- Conservation: items are the concatenation of their deltas -----

  function TextDeltas(bodies: seq<Body>): string {
    if bodies == [] then ""
    else
      var last := bodies[|bodies| - 1];
      TextDeltas(bodies[..|bodies| - 1]) + if last.TextDelta? then last.delta else ""
  }

  function ReasoningDeltas(bodies: seq<Body>): string {
    if bodies == [] then ""
    else
      var last := bodies[|bodies| - 1];
      ReasoningDeltas(bodies[..|bodies| - 1]) + if last.ReasoningDelta? then last.delta else ""
  }

  function ArgumentDeltas(bodies: seq<Body>, index: int): string {
    if bodies == [] then ""
    else
      var last := bodies[|bodies| - 1];
      ArgumentDeltas(bodies[..|bodies| - 1], index) + Adds(last, index)
  }

  /** An output item is what the deltas delivered under its index. */
  predicate MadeOfDeltas(bodies: seq<Body>, index: nat, item: Item) {
    match item
    case Reasoning(_, summary, _) => summary == [ReasoningDeltas(bodies)]
    case Message(_, content) => content == FinalText(TextDeltas(bodies))
    case FunctionCall(_, _, _, arguments) => arguments == ArgumentDeltas(bodies, index)
    case OtherItem => false
  }

  ghost predicate Delivers(l: Log, bodies: seq<Body>) {
    && l.text == TextDeltas(bodies) && l.thinking == ReasoningDeltas(bodies)
    && (forall p :: 0 <= p < |l.items| && l.items[p].ToolDraft? ==> l.items[p].arguments == ArgumentDeltas(bodies, p))
    && (forall p :: p >= |l.items| ==> ArgumentDeltas(bodies, p) == "")
  }

  /** What an event adds to the arguments of the tool at an output index. */
  function Adds(b: Body, index: int): string {
    if b.ArgumentsDelta? && b.index == Some(index) then b.delta else ""
  }

  lemma AdvanceDelivers(l: Log, b: Body)
    requires Advance(l, b).Some?
    ensures var n := Advance(l, b).value;
            && n.text == l.text + (if b.TextDelta? then b.delta else "")
            && n.thinking == l.thinking + (if b.ReasoningDelta? then b.delta else "")
            && |n.items| >= |l.items|
            && (forall p :: 0 <= p < |l.items| ==> n.items[p].ToolDraft? == l.items[p].ToolDraft?)
            && (b.ArgumentsDelta? ==> b.index.Some? && IsToolAt(l, b.index.value))
            && (forall p :: |l.items| <= p < |n.items| && n.items[p].ToolDraft? ==> n.items[p].arguments == "")
            && (forall p ::
                 IsToolAt(l, p) ==> n.items[p] == l.items[p].(arguments := l.items[p].arguments + Adds(b, p)))
  {
    hide ToolPositions, Rendered, HasTool, ClosesArguments;
  }

  lemma {:induction false} FeedDelivers(bodies: seq<Body>)
    requires Feed(EMPTY_LOG, bodies).Some?
    ensures Delivers(Feed(EMPTY_LOG, bodies).value, bodies)
  {
    hide Advance;
    if bodies != [] {
      var most := bodies[..|bodies| - 1];
      FeedDelivers(most);
      var l, last := Feed(EMPTY_LOG, most).value, bodies[|bodies| - 1];
      AdvanceDelivers(l, last);
      var n := Feed(EMPTY_LOG, bodies).value;
      forall p: nat ensures ArgumentDeltas(bodies, p) == ArgumentDeltas(most, p) + Adds(last, p) {}
      forall p | 0 <= p < |n.items| && n.items[p].ToolDraft? ensures n.items[p].arguments == ArgumentDeltas(bodies, p) {
        if p < |l.items| {
          assert IsToolAt(l, p);
        }
      }
    }
  }

  /** Items announced as done are in the log as they will be rendered. */
  ghost predicate AnnouncedKept(l: Log, bodies: seq<Body>) {
    forall i :: 0 <= i < |bodies| && FinishesItem(bodies[i]) ==>
      0 <= bodies[i].outputIndex < |l.items| && bodies[i].item == Render(l, l.items[bodies[i].outputIndex])
      && Sealed(l, l.items[bodies[i].outputIndex])
  }

  /** A draft that no later event can change. */
  ghost predicate Sealed(l: Log, d: Draft) {
    match d
    case ThinkingDraft => l.reasoning.Some?
    case TextDraft => l.messageClosed
    case ToolDraft(_, _, _) => l.argsClosed > 0
  }

  lemma AdvanceKeepsSealed(l: Log, b: Body, p: nat)
    requires Advance(l, b).Some? && p < |l.items| && Sealed(l, l.items[p]) && MarkersConsistent(l)
    ensures var n := Advance(l, b).value;
            p < |n.items| && n.items[p] == l.items[p] && Sealed(n, n.items[p])
              && Render(n, n.items[p]) == Render(l, l.items[p])
  {
    hide ToolPositions, Rendered, HasTool, ClosesArguments;
  }

  lemma AnnouncedSealed(l: Log, b: Body)
    requires Consistent(l) && Advance(l, b).Some? && FinishesItem(b)
    ensures var n := Advance(l, b).value;
            0 <= b.outputIndex < |n.items| && b.item == Render(n, n.items[b.outputIndex])
              && Sealed(n, n.items[b.outputIndex])
  {
    hide Rendered, HasTool, ToolsDistinct, ClosesArguments, ToolPositions;
  }

  lemma {:induction false} FeedAnnounces(bodies: seq<Body>)
    requires Feed(EMPTY_LOG, bodies).Some?
    ensures AnnouncedKept(Feed(EMPTY_LOG, bodies).value, bodies)
  {
    hide Advance, Render, Sealed, MarkersConsistent, ClosingConsistent, ToolsDistinct;
    if bodies != [] {
      var most, last := bodies[..|bodies| - 1], bodies[|bodies| - 1];
      var l := Feed(EMPTY_LOG, most).value;
      var n := Feed(EMPTY_LOG, bodies).value;
      FeedAnnounces(most);
      FeedConsistent(most);
      forall i | 0 <= i < |bodies| && FinishesItem(bodies[i])
        ensures 0 <= bodies[i].outputIndex < |n.items| && bodies[i].item == Render(n, n.items[bodies[i].outputIndex])
                && Sealed(n, n.items[bodies[i].outputIndex])
      {
        if i < |most| {
          assert most[i] == bodies[i];
          AdvanceKeepsSealed(l, last, bodies[i].outputIndex);
        } else {
          AnnouncedSealed(l, last);
        }
      }
    }
  }

  /** The tool that an event is about. */
  predicate AboutTool(b: Body, index: int, id: string) {
    (b.ItemAdded? && b.outputIndex == index && b.item.FunctionCall? && b.item.id == id)
    || (b.ArgumentsDelta? && b.index == Some(index) && b.itemId == id)
    || (b.ArgumentsDone? && b.index == Some(index) && b.itemId == id)
  }

  predicate IsToolEvent(b: Body) {
    AddsTool(b) || b.ArgumentsDelta? || b.ArgumentsDone?
  }

  ghost predicate ToolEventKept(l: Log, b: Body) {
    IsToolEvent(b) ==> exists p :: 0 <= p < |l.items| && l.items[p].ToolDraft? && AboutTool(b, p, l.items[p].id)
  }

  /** Every event about a tool names a tool of the log by its index and id. */
  ghost predicate ToolEventsKept(l: Log, bodies: seq<Body>) {
    forall i :: 0 <= i < |bodies| ==> ToolEventKept(l, bodies[i])
  }

  lemma AdvanceKeepsTools(l: Log, b: Body)
    requires Advance(l, b).Some?
    ensures var n := Advance(l, b).value;
            && |n.items| >= |l.items| && ToolEventKept(n, b)
            && forall p ::
                 0 <= p < |l.items| && l.items[p].ToolDraft? ==> n.items[p].ToolDraft? && n.items[p].id == l.items[p].id
  {
    hide Rendered, HasTool, ToolPositions;
    var n := Advance(l, b).value;
    if AddsTool(b) { assert AboutTool(b, |l.items|, n.items[|l.items|].id); }
    if b.ArgumentsDelta? { assert AboutTool(b, b.index.value, n.items[b.index.value].id); }
    if b.ArgumentsDone? {
      var p := ToolPositions(l.items)[l.argsClosed];
      assert AboutTool(b, p, n.items[p].id);
    }
  }

  lemma {:induction false} FeedKeepsTools(bodies: seq<Body>)
    requires Feed(EMPTY_LOG, bodies).Some?
    ensures ToolEventsKept(Feed(EMPTY_LOG, bodies).value, bodies)
  {
    hide Advance, AboutTool;
    if bodies != [] {
      var most, last := bodies[..|bodies| - 1], bodies[|bodies| - 1];
      var l, n := Feed(EMPTY_LOG, most).value, Feed(EMPTY_LOG, bodies).value;
      FeedKeepsTools(most);
      AdvanceKeepsTools(l, last);
      forall i | 0 <= i < |bodies| ensures ToolEventKept(n, bodies[i]) {
        if i < |most| { assert most[i] == bodies[i] && ToolEventKept(l, most[i]); }
      }
    }
  }

  /** At most one reasoning item and one message, and tools told apart by their ids. */
  predicate Unmixed(output: seq<Item>) {
    forall p, q :: 0 <= p < q < |output| ==>
      && !(output[p].Reasoning? && output[q].Reasoning?) && !(output[p].Message? && output[q].Message?)
      && (output[p].FunctionCall? && output[q].FunctionCall? ==> output[p].id != output[q].id)
  }

  /** What was delivered is in the output: thinking, text, and every tool under the index and id its events name. */
  ghost predicate NothingDropped(bodies: seq<Body>, output: seq<Item>) {
    && (ReasoningDeltas(bodies) != "" ==> exists p :: 0 <= p < |output| && output[p].Reasoning?)
    && (TextDeltas(bodies) != "" ==> exists p :: 0 <= p < |output| && output[p].Message?)
    && (forall i :: 0 <= i < |bodies| && IsToolEvent(bodies[i]) ==>
          exists p :: 0 <= p < |output| && output[p].FunctionCall? && AboutTool(bodies[i], p, output[p].id))
  }

  /**
   Every output item is made of its deltas and was announced as it is in the response, and no delta is without its
   item.
   */
  ghost predicate Conserved(bodies: seq<Body>) {
    Framed(bodies) &&
    var output := FinalOutput(bodies);
    && (forall p :: 0 <= p < |output| ==> MadeOfDeltas(bodies, p, output[p]))
    && (forall i :: 0 <= i < |bodies| && FinishesItem(bodies[i]) ==> 0 <= bodies[i].outputIndex < |output|)
    && (forall i :: 0 <= i < |bodies| && FinishesItem(bodies[i]) ==> output[bodies[i].outputIndex] == bodies[i].item)
    && Unmixed(output) && NothingDropped(bodies, output)
  }

  /** The output of a framed stream. */
  ghost function FinalOutput(bodies: seq<Body>): seq<Item>
    requires Framed(bodies)
  {
    bodies[|bodies| - 1].response.value.output
  }

  lemma OutputUnmixed(l: Log, bodies: seq<Body>)
    requires Consistent(l) && ReasoningSettled(l) && Delivers(l, bodies) && ToolEventsKept(l, bodies)
    ensures Unmixed(Rendered(l)) && NothingDropped(bodies, Rendered(l))
  {
    hide ToolPositions, ClosingConsistent, AboutTool;
    var output := Rendered(l);
    forall i | 0 <= i < |bodies| && IsToolEvent(bodies[i])
      ensures exists p :: 0 <= p < |output| && output[p].FunctionCall? && AboutTool(bodies[i], p, output[p].id)
    {
      assert ToolEventKept(l, bodies[i]);
      var p :| 0 <= p < |l.items| && l.items[p].ToolDraft? && AboutTool(bodies[i], p, l.items[p].id);
      assert output[p].FunctionCall? && output[p].id == l.items[p].id;
    }
    assert l.thinking != "" ==> output[l.thinkingAt.value].Reasoning?;
    assert l.text != "" ==> output[l.textAt.value].Message?;
  }

  lemma ConformingIsConserved(bodies: seq<Body>)
    requires Conforms(bodies)
    ensures Conserved(bodies) && FinalOutput(bodies) == Rendered(Feed(EMPTY_LOG, bodies).value)
  {
    hide Feed, Unmixed, NothingDropped, ToolEventsKept, Consistent;
    PrefixFramed(bodies);
    FeedDelivers(bodies);
    FeedAnnounces(bodies);
    FeedConsistent(bodies);
    FeedKeepsTools(bodies);
    OutputUnmixed(Feed(EMPTY_LOG, bodies).value, bodies);
    ItemsMade(Feed(EMPTY_LOG, bodies).value, bodies);
  }

  lemma ItemsMade(l: Log, bodies: seq<Body>)
    requires Consistent(l) && ReasoningSettled(l) && Delivers(l, bodies)
    ensures forall p :: 0 <= p < |Rendered(l)| ==> MadeOfDeltas(bodies, p, Rendered(l)[p])
  {
    hide ToolPositions, ClosingConsistent, ToolsDistinct;
  }

  // ----- Numbering -----

  ghost predicate Numbers(s: State, o: Outcome) {
    o.ok ==>
      && o.state.sink.sequence == s.sink.sequence + |o.events|
      && forall i :: 0 <= i < |o.events| ==> o.events[i].sequence == s.sink.sequence + i
  }

  lemma NumbersAfter(s: State, first: Outcome, second: Outcome)
    requires first.ok && Numbers(s, first) && Numbers(first.state, second)
    ensures Numbers(s, After(first.events, second))
  {
  }

  lemma PushToolNumbers(s: State, call: Call)
    ensures Numbers(s, PushTool(s, call))
  {
  }

  lemma {:induction false} PushToolsNumber(s: State, calls: seq<Call>)
    ensures Numbers(s, PushTools(s, calls))
  {
    hide PushTool;
    if calls != [] {
      var most := PushTools(s, calls[..|calls| - 1]);
      PushToolsNumber(s, calls[..|calls| - 1]);
      if most.ok {
        PushToolNumbers(most.state, calls[|calls| - 1]);
        NumbersAfter(s, most, PushTool(most.state, calls[|calls| - 1]));
      }
    }
  }

  lemma SpeechNumbers(s: State, delta: string)
    ensures Numbers(s, PushThinking(s, delta)) && PushThinking(s, delta).ok
    ensures Numbers(s, CloseReasoning(s)) && CloseReasoning(s).ok && Numbers(s, AddText(s, delta))
  {
  }

  lemma DeltasNumber(s: State, f: Frame)
    ensures Numbers(s, PushDeltas(s, f))
  {
    hide PushThinking, CloseReasoning, AddText;
    var thinking := PushThinking(s, f.thinking);
    SpeechNumbers(s, f.thinking);
    var closed := CloseReasoning(thinking.state);
    SpeechNumbers(thinking.state, f.text);
    SpeechNumbers(closed.state, f.text);
    if f.text != "" { NumbersAfter(thinking.state, closed, AddText(closed.state, f.text)); }
    NumbersAfter(s, thinking, PushText(thinking.state, f.text));
  }

  lemma BeginNumbers(s: State, f: Frame)
    ensures Numbers(s, Begin(s, f)) && Begin(s, f).ok
  {
  }

  lemma PushNumbers(s: State, f: Frame)
    ensures Numbers(s, Push(s, f))
  {
    hide Begin, PushDeltas, PushTools;
    var start := Begin(s, f);
    BeginNumbers(s, f);
    if UsageInRange(f) {
      var s1 := start.state.(head := Spend(Stop(start.state.head, f), f));
      DeltasNumber(s1, f);
      DeltasOk(s1, f);
      PushToolsNumber(PushDeltas(s1, f).state, f.calls);
    }
  }

  lemma {:induction false} PushAllNumbers(s: State, frames: seq<Frame>)
    ensures Numbers(s, PushAll(s, frames))
  {
    hide Push;
    if frames != [] {
      var most := PushAll(s, frames[..|frames| - 1]);
      PushAllNumbers(s, frames[..|frames| - 1]);
      if most.ok {
        PushNumbers(most.state, frames[|frames| - 1]);
        NumbersAfter(s, most, Push(most.state, frames[|frames| - 1]));
      }
    }
  }

  lemma CloseToolNumbers(s: State, id: string, valid: JsonTest)
    requires id in s.table.byId
    ensures Numbers(s, CloseTool(s, id, valid))
  {
  }

  lemma {:induction false} CloseToolsNumber(s: State, k: nat, valid: JsonTest)
    requires Tracked(s.table) && k <= |s.table.order|
    ensures Numbers(s, CloseTools(s, k, valid))
  {
    hide CloseTool;
    if k > 0 {
      CloseToolsNumber(s, k - 1, valid);
      var most := CloseTools(s, k - 1, valid);
      if most.ok {
        CloseToolNumbers(most.state, s.table.order[k - 1], valid);
        NumbersAfter(s, most, CloseTool(most.state, s.table.order[k - 1], valid));
      }
    }
  }

  lemma OpenNumbers(s: State)
    ensures Numbers(s, Open(s)) && Open(s).ok && Numbers(s, CloseText(s)) && CloseText(s).ok
    ensures StoreReasoning(s).sink.sequence == s.sink.sequence
  {
  }

  lemma PrepareNumbers(s: State)
    ensures Numbers(s, PrepareFinal(s)) && PrepareFinal(s).ok
  {
    hide Open, CloseReasoning, CloseText, StoreReasoning;
    var start := Open(s);
    OpenNumbers(s);
    var reasoned := CloseReasoning(start.state);
    SpeechNumbers(start.state, "");
    NumbersAfter(s, start, reasoned);
    OpenNumbers(reasoned.state);
    OpenNumbers(StoreReasoning(reasoned.state));
  }

  lemma FinalizeNumbers(s: State, valid: JsonTest)
    requires Tracked(s.table)
    ensures Numbers(s, Finalize(s, valid))
  {
    hide PrepareFinal, CloseTools;
    PrepareNumbers(s);
    PrepareKeepsTable(s);
    CloseToolsNumber(PrepareFinal(s).state, |s.table.order|, valid);
  }

  // ----- Tool arguments -----

  function Concat(fragments: seq<string>): string {
    if fragments == [] then "" else Concat(fragments[..|fragments| - 1]) + fragments[|fragments| - 1]
  }

  /** Each fragment repeats the one before it and may add to it. */
  predicate Snapshots(fragments: seq<string>) {
    forall i, j :: 0 <= i < |fragments| && 0 <= j < |fragments| && j == i + 1 ==> fragments[i] <= fragments[j]
  }

  /** Snapshots that only grow end as the last snapshot. */
  lemma {:induction false} SnapshotsEndAsTheLast(fragments: seq<string>)
    requires fragments != [] && Snapshots(fragments)
    ensures Accumulated(fragments) == fragments[|fragments| - 1]
  {
    var last := fragments[|fragments| - 1];
    var most := fragments[..|fragments| - 1];
    if most != [] {
      SnapshotsEndAsTheLast(most);
      assert fragments[|most| - 1] <= last;
    } else {
      assert Accumulated(most) == "";
    }
    SnapshotReplaces(Accumulated(most), last);
    hide Accumulate, Snapshots;
  }

  lemma SnapshotReplaces(sofar: string, next: string)
    requires sofar <= next
    ensures Accumulate(sofar, next) == next
  {
    assert sofar + next[|sofar|..] == next;
  }

  /** Fragments none of which starts with the text before it end as their concatenation. */
  lemma {:induction false} FragmentsEndAsConcatenation(fragments: seq<string>)
    requires forall i :: 0 < i < |fragments| ==> fragments[i] == "" || !(Accumulated(fragments[..i]) <= fragments[i])
    ensures Accumulated(fragments) == Concat(fragments)
  {
    if |fragments| > 1 {
      var most := fragments[..|fragments| - 1];
      forall i | 0 < i < |most| ensures most[..i] == fragments[..i] {}
      FragmentsEndAsConcatenation(most);
    } else if |fragments| == 1 {
      assert Accumulated(fragments[..0]) == "" && Concat(fragments[..0]) == "";
    }
  }

  ghost predicate ArgumentsAccumulate(s: State, calls: seq<Call>, limit: int) {
    && s.table.active == ActiveAfter(calls) && s.maxToolBytes == limit
    && (forall id :: id in s.table.byId ==> s.table.byId[id].arguments == Accumulated(FragmentsFor(calls, id)))
    && (forall id :: id in s.table.byId ==> |s.table.byId[id].arguments| <= limit)
    && (forall id :: id !in s.table.byId ==> FragmentsFor(calls, id) == [])
  }

  lemma FragmentsForMore(calls: seq<Call>, call: Call, id: string)
    ensures ActiveAfter(calls + [call]) == Addressee(ActiveAfter(calls), call)
    ensures FragmentsFor(calls + [call], id)
         == if Addressee(ActiveAfter(calls), call) == id then FragmentsFor(calls, id) + [call.arguments]
         else FragmentsFor(calls, id)
  {
    assert (calls + [call])[..|calls|] == calls;
  }

  lemma AccumulatedMore(fragments: seq<string>, fragment: string)
    ensures Accumulated(fragments + [fragment]) == Accumulate(Accumulated(fragments), fragment)
  {
    assert (fragments + [fragment])[..|fragments|] == fragments;
  }

  function ArgumentsSoFar(t: ToolTable, id: string): string {
    if id in t.byId then t.byId[id].arguments else ""
  }

  /**
   What one call leaves in the table: the tool it addresses has taken in its fragment, within the limit, and the others
   are as they were.
   */
  ghost predicate TakesIn(before: ToolTable, after: ToolTable, id: string, fragment: string, limit: int) {
    && after.active == id && after.byId.Keys == before.byId.Keys + {id}
    && after.byId[id].arguments == Accumulate(ArgumentsSoFar(before, id), fragment)
    && (after.byId[id].arguments == ArgumentsSoFar(before, id) || |after.byId[id].arguments| <= limit)
    && forall other :: other in before.byId && other != id ==> after.byId[other] == before.byId[other]
  }

  lemma AddArgumentsEffect(s: State, id: string, fragment: string)
    requires id in s.table.byId && AddArguments(s, id, fragment).ok
    ensures var n := AddArguments(s, id, fragment).state;
            n.maxToolBytes == s.maxToolBytes && TakesIn(s.table, n.table, id, fragment, s.maxToolBytes)
  {
  }

  lemma PushToolEffect(s: State, call: Call)
    requires PushTool(s, call).ok
    ensures var n := PushTool(s, call).state;
            && n.maxToolBytes == s.maxToolBytes
            && TakesIn(s.table, n.table, Addressee(s.table.active, call), call.arguments, s.maxToolBytes)
  {
    hide AddArguments, Accumulate;
    var id := Addressee(s.table.active, call);
    if id in s.table.byId {
      AddArgumentsEffect(s, id, call.arguments);
    } else {
      AddArgumentsEffect(AddTool(s, id, call.name).state, id, call.arguments);
    }
  }

  lemma PushToolAccumulates(s: State, calls: seq<Call>, call: Call, limit: int)
    requires ArgumentsAccumulate(s, calls, limit) && PushTool(s, call).ok && limit >= 0
    ensures ArgumentsAccumulate(PushTool(s, call).state, calls + [call], limit)
  {
    hide FragmentsFor, ActiveAfter, PushTool, Accumulated, Accumulate;
    PushToolEffect(s, call);
    NothingAccumulated();
    var to := Addressee(s.table.active, call);
    FragmentsForMore(calls, call, to);
    AccumulatedMore(FragmentsFor(calls, to), call.arguments);
    forall id | id != to ensures FragmentsFor(calls + [call], id) == FragmentsFor(calls, id) {
      FragmentsForMore(calls, call, id);
    }
  }

  lemma NothingAccumulated()
    ensures Accumulated([]) == ""
  {
  }

  lemma {:induction false} PushToolsAccumulate(s: State, before: seq<Call>, calls: seq<Call>, limit: int)
    requires ArgumentsAccumulate(s, before, limit) && PushTools(s, calls).ok && limit >= 0
    ensures ArgumentsAccumulate(PushTools(s, calls).state, before + calls, limit)
  {
    hide PushTool, ArgumentsAccumulate;
    if calls == [] {
      assert before + calls == before;
    } else {
      var most := calls[..|calls| - 1];
      PushToolsAccumulate(s, before, most, limit);
      PushToolAccumulates(PushTools(s, most).state, before + most, calls[|calls| - 1], limit);
      assert before + calls == (before + most) + [calls[|calls| - 1]];
    }
  }

  lemma ContentKeepsTable(s: State, f: Frame)
    requires UsageInRange(f)
    ensures var start := Begin(s, f).state;
            var deltas := PushDeltas(start.(head := Spend(Stop(start.head, f), f)), f).state;
            deltas.table == s.table && deltas.maxToolBytes == s.maxToolBytes
  {
  }

  lemma SameTable(s: State, t: State, calls: seq<Call>, limit: int)
    requires s.table == t.table && s.maxToolBytes == t.maxToolBytes
    ensures ArgumentsAccumulate(s, calls, limit) == ArgumentsAccumulate(t, calls, limit)
  {
  }

  lemma PushAccumulates(s: State, calls: seq<Call>, f: Frame, limit: int)
    requires ArgumentsAccumulate(s, calls, limit) && Push(s, f).ok && !s.terminal && limit >= 0
    ensures ArgumentsAccumulate(Push(s, f).state, calls + f.calls, limit)
  {
    hide ArgumentsAccumulate, Begin, PushDeltas, PushTools;
    ContentKeepsTable(s, f);
    var start := Begin(s, f).state;
    var deltas := PushDeltas(start.(head := Spend(Stop(start.head, f), f)), f).state;
    SameTable(s, deltas, calls, limit);
    PushToolsAccumulate(deltas, calls, f.calls, limit);
  }

  lemma {:induction false} PushAllAccumulates(s: State, l: Log, frames: seq<Frame>, limit: int)
    requires Agree(s, l) && ArgumentsAccumulate(s, [], limit) && PushAll(s, frames).ok && limit >= 0
    ensures ArgumentsAccumulate(PushAll(s, frames).state, AllCalls(frames), limit)
  {
    hide Agree, Push, ArgumentsAccumulate, Feed;
    if frames != [] {
      var most := frames[..|frames| - 1];
      PushAllAccumulates(s, l, most, limit);
      PushAllFollows(s, l, most);
      var before := PushAll(s, most);
      NotTerminal(before.state, Feed(l, Bodies(before.events)).value);
      PushAccumulates(before.state, AllCalls(most), frames[|frames| - 1], limit);
    }
  }

  lemma {:induction false} CloseToolsKeepArguments(s: State, k: nat, valid: JsonTest)
    requires Tracked(s.table) && k <= |s.table.order|
    ensures var t := CloseTools(s, k, valid).state.table;
            t.byId.Keys == s.table.byId.Keys && forall id ::
                 id in t.byId ==> t.byId[id].arguments == s.table.byId[id].arguments
  {
    if k > 0 {
      CloseToolsKeepArguments(s, k - 1, valid);
    }
  }

  lemma FinalizeKeepsArguments(s: State, valid: JsonTest)
    requires Tracked(s.table)
    ensures var t := Finalize(s, valid).state.table;
            t.byId.Keys == s.table.byId.Keys && forall id ::
                 id in t.byId ==> t.byId[id].arguments == s.table.byId[id].arguments
  {
    hide PrepareFinal, CloseTools;
    PrepareKeepsTable(s);
    CloseToolsKeepArguments(PrepareFinal(s).state, |s.table.order|, valid);
  }

  /** Events of an accepted run are numbered 0, 1, 2, ... without gaps. */
  lemma RunIsNumbered(model: string, id: string, limit: int, frames: seq<Frame>, valid: JsonTest)
    requires Run(Initial(model, id, limit), frames, valid).ok
    ensures var events := Run(Initial(model, id, limit), frames, valid).events;
            forall i :: 0 <= i < |events| ==> events[i].sequence == i
  {
    hide Finalize, PushAll;
    var s := Initial(model, id, limit);
    var pushed := PushAll(s, frames);
    PushAllNumbers(s, frames);
    FinalizeNumbers(pushed.state, valid);
    NumbersAfter(s, pushed, Finalize(pushed.state, valid));
  }

  /** An accepted run is framed and conserves its deltas, with one output item for each index it allocated. */
  lemma RunIsConserved(model: string, id: string, limit: int, frames: seq<Frame>, valid: JsonTest)
    requires Run(Initial(model, id, limit), frames, valid).ok
    ensures var o := Run(Initial(model, id, limit), frames, valid);
            Conserved(Bodies(o.events)) && |FinalOutput(Bodies(o.events))| == o.state.sink.next
  {
    hide Run, Feed, MadeOfDeltas, Framed, ToolsAgree;
    RunConforms(model, id, limit, frames, valid);
    ConformingIsConserved(Bodies(Run(Initial(model, id, limit), frames, valid).events));
  }

  /** Each tool call of an accepted run carries what its fragments accumulate to, within the limit. */
  lemma RunAccumulatesArguments(model: string, id: string, limit: int, frames: seq<Frame>, valid: JsonTest, p: nat)
    requires limit > 0 && Run(Initial(model, id, limit), frames, valid).ok
    requires var bodies := Bodies(Run(Initial(model, id, limit), frames, valid).events);
             Framed(bodies) && p < |FinalOutput(bodies)| && FinalOutput(bodies)[p].FunctionCall?
    ensures var item := FinalOutput(Bodies(Run(Initial(model, id, limit), frames, valid).events))[p];
            item.arguments == Accumulated(FragmentsFor(AllCalls(frames), item.id)) && |item.arguments| <= limit
  {
    var s := Initial(model, id, limit);
    var pushed := PushAll(s, frames);
    RunArgumentsInTable(model, id, limit, frames, valid, p);
    InitialAgrees(model, id, limit);
    hide Finalize, PushAll, Feed, Agree, FinalOutput, AllCalls, FragmentsFor, Accumulated;
    PushAllAccumulates(s, EMPTY_LOG, frames, limit);
    FinalizeKeepsArguments(pushed.state, valid);
  }

  /** The tool calls of the response are the mapper's tools. */
  lemma RunArgumentsInTable(model: string, id: string, limit: int, frames: seq<Frame>, valid: JsonTest, p: nat)
    requires Run(Initial(model, id, limit), frames, valid).ok
    requires var bodies := Bodies(Run(Initial(model, id, limit), frames, valid).events);
             Framed(bodies) && p < |FinalOutput(bodies)| && FinalOutput(bodies)[p].FunctionCall?
    ensures var o := Run(Initial(model, id, limit), frames, valid);
            var item := FinalOutput(Bodies(o.events))[p];
            item.id in o.state.table.byId && item.arguments == o.state.table.byId[item.id].arguments
  {
    hide Run, Feed, ToolPositions, MadeOfDeltas;
    var o := Run(Initial(model, id, limit), frames, valid);
    RunConforms(model, id, limit, frames, valid);
    ConformingIsConserved(Bodies(o.events));
    FeedConsistent(Bodies(o.events));
  }
}
