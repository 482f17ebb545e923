/**
 Every accepted run of the mapper is a conforming stream: the log read off the
 emitted events agrees with the mapper's own accumulators at every step.
 */
module MapperConformance {
  import opened Basics
  import opened CanonicalEvents
  import opened StreamProtocol
  import opened MapperSteps

  function MaybeIndex(i: int): Option<nat> {
    if i < 0 then None else Some(i)
  }

  ghost predicate ToolsAgree(t: ToolTable, items: seq<Draft>) {
    && t.order == Ids(ToolDrafts(items))
    && (forall id :: id in t.byId ==> t.byId[id].outputIndex < |items|)
    && (forall id ::
         id in t.byId ==> items[t.byId[id].outputIndex] == ToolDraft(id, t.byId[id].name, t.byId[id].arguments))
    && (forall p ::
         0 <= p < |items| && items[p].ToolDraft? ==> items[p].id in t.byId && t.byId[items[p].id].outputIndex == p)
  }

  ghost predicate ThoughtAgrees(s: State, l: Log) {
    && l.thinking == s.thought.text && l.thinkingAt == MaybeIndex(s.thought.index)
    && (s.thought.done ==> s.thought.index >= 0 && l.reasoning == Some(ReasoningItem(s.thought)))
    && (!s.thought.done ==> l.reasoning.None?)
    && (s.thought.open <==> s.thought.index >= 0 && !s.thought.done)
  }

  ghost predicate HeadAgrees(s: State, l: Log) {
    && !s.terminal && l.final.None?
    && l.started == s.head.created && (l.started ==> l.id == s.head.responseId)
    && |l.items| == s.sink.next
    && l.text == s.prose.text && l.textAt == MaybeIndex(s.prose.index)
  }

  /** The mapper's fields say what the log says, and nothing has been closed but the reasoning. */
  ghost predicate Agree(s: State, l: Log) {
    && HeadAgrees(s, l) && ThoughtAgrees(s, l) && ToolsAgree(s.table, l.items)
    && !l.messageClosed && l.argsClosed == 0 && l.itemsClosed == 0
    && s.sink.items == if s.thought.done then map[s.thought.index := ReasoningItem(s.thought)] else map[]
  }

  /** A successful step whose events the log accepts, ending in agreement again. */
  ghost predicate Follows(l: Log, o: Outcome) {
    o.ok ==> Feed(l, Bodies(o.events)).Some? && Agree(o.state, Feed(l, Bodies(o.events)).value)
  }

  lemma InitialAgrees(model: string, id: string, limit: int)
    ensures Agree(Initial(model, id, limit), EMPTY_LOG)
  {
  }

  lemma FeedNone(l: Log)
    ensures Bodies([]) == [] && Feed(l, []) == Some(l)
  {
  }

  lemma BodiesOne(e: Event)
    ensures Bodies([e]) == [e.body]
  {
  }

  /** Steps compose: what follows a followed step follows from where it ended. */
  lemma FeedAfter(l: Log, first: seq<Event>, second: seq<Event>)
    requires Feed(l, Bodies(first)).Some?
    ensures Feed(l, Bodies(first + second)) == Feed(Feed(l, Bodies(first)).value, Bodies(second))
  {
    hide Feed;
    FeedAppend(l, Bodies(first), Bodies(second));
    assert Bodies(first + second) == Bodies(first) + Bodies(second);
  }

  lemma OpenFollows(s: State, l: Log)
    requires Agree(s, l)
    ensures Follows(l, Open(s)) && Open(s).ok && Open(s).state.head.created
  {
    hide ToolsAgree;
    if s.head.created {
      FeedNone(l);
    } else {
      FeedOne(l, Created(s.head.responseId, Model(s.head)));
      BodiesOne(Open(s).events[0]);
    }
  }

  lemma ThinkingFollows(s: State, l: Log, delta: string)
    requires Agree(s, l) && l.started && (s.thought.done ==> delta == "")
    ensures Follows(l, PushThinking(s, delta))
  {
    hide ToolsAgree;
    if delta == "" {
      FeedNone(l);
    } else {
      FeedOne(l, ReasoningDelta(delta));
      BodiesOne(PushThinking(s, delta).events[0]);
      ToolsAgreeAppend(s.table, l.items, ThinkingDraft);
    }
  }

  lemma ToolsAgreeAppend(t: ToolTable, items: seq<Draft>, d: Draft)
    requires ToolsAgree(t, items) && !d.ToolDraft?
    ensures ToolsAgree(t, items + [d])
  {
    hide ToolDrafts;
    DraftsAppend(items, d);
  }

  lemma CloseReasoningFollows(s: State, l: Log)
    requires Agree(s, l) && l.started
    ensures Follows(l, CloseReasoning(s)) && CloseReasoning(s).ok
    ensures CloseReasoning(s).state.thought.index >= 0 ==> CloseReasoning(s).state.thought.done
  {
    hide ToolsAgree;
    if s.thought.open && !s.thought.done {
      FeedOne(l, ItemDone("", s.thought.index, ReasoningItem(s.thought)));
      BodiesOne(CloseReasoning(s).events[0]);
    } else {
      FeedNone(l);
    }
  }

  lemma AddTextFollows(s: State, l: Log, delta: string)
    requires Agree(s, l) && l.started && delta != "" && (s.thought.index >= 0 ==> s.thought.done)
    ensures Follows(l, AddText(s, delta))
  {
    hide ToolsAgree;
    FeedOne(l, TextDelta(delta));
    BodiesOne(AddText(s, delta).events[0]);
    ToolsAgreeAppend(s.table, l.items, TextDraft);
  }

  lemma TextFollows(s: State, l: Log, delta: string)
    requires Agree(s, l) && l.started
    ensures Follows(l, PushText(s, delta))
  {
    hide Agree, Feed, AddText, CloseReasoning;
    if delta == "" {
      FeedNone(l);
    } else {
      CloseReasoningFollows(s, l);
      var closed := CloseReasoning(s);
      var middle := Feed(l, Bodies(closed.events)).value;
      StillStarted(l, closed.events);
      AddTextFollows(closed.state, middle, delta);
      FeedAfter(l, closed.events, AddText(closed.state, delta).events);
    }
  }

  lemma StaysStarted(l: Log, b: Body)
    requires l.started && Advance(l, b).Some?
    ensures Advance(l, b).value.started
  {
    hide Rendered, ToolPositions, HasTool;
  }

  lemma {:induction false} StillStarted(l: Log, events: seq<Event>)
    requires l.started && Feed(l, Bodies(events)).Some?
    ensures Feed(l, Bodies(events)).value.started
  {
    hide Advance;
    if events != [] {
      var most := events[..|events| - 1];
      assert Bodies(events)[..|events| - 1] == Bodies(most);
      StillStarted(l, most);
      StaysStarted(Feed(l, Bodies(most)).value, Bodies(events)[|events| - 1]);
    }
  }

  lemma AddToolAgrees(s: State, l: Log, id: string, name: string)
    requires ToolsAgree(s.table, l.items) && |l.items| == s.sink.next && id !in s.table.byId
    ensures ToolsAgree(AddTool(s, id, name).state.table, l.items + [ToolDraft(id, name, "")])
    ensures !HasTool(l.items, id)
  {
    hide ToolDrafts, ToolPositions;
    var d := ToolDraft(id, name, "");
    DraftsAppend(l.items, d);
    assert Ids(ToolDrafts(l.items) + [d]) == Ids(ToolDrafts(l.items)) + [id];
  }

  lemma AddToolFollows(s: State, l: Log, id: string, name: string)
    requires Agree(s, l) && l.started && id != "" && id !in s.table.byId
    ensures Follows(l, AddTool(s, id, name))
  {
    hide ToolsAgree;
    AddToolAgrees(s, l, id, name);
    FeedOne(l, ItemAdded(s.sink.next, ToolItem(id, name, "")));
    BodiesOne(AddTool(s, id, name).events[0]);
  }

  lemma GrowArgumentsAgrees(t: ToolTable, items: seq<Draft>, id: string, arguments: string)
    requires ToolsAgree(t, items) && id in t.byId
    ensures t.byId[id].outputIndex < |items|
    ensures ToolsAgree(t.(byId := t.byId[id := t.byId[id].(arguments := arguments)]),
                       items[t.byId[id].outputIndex := ToolDraft(id, t.byId[id].name, arguments)])
  {
    hide ToolDrafts, ToolPositions;
    var d := ToolDraft(id, t.byId[id].name, arguments);
    var k := DraftsKept(items, t.byId[id].outputIndex, d);
    assert Ids(ToolDrafts(items)[k := d]) == Ids(ToolDrafts(items));
  }

  lemma ToolStands(t: ToolTable, items: seq<Draft>, id: string)
    requires ToolsAgree(t, items) && id in t.byId
    ensures t.byId[id].outputIndex < |items|
    ensures items[t.byId[id].outputIndex] == ToolDraft(id, t.byId[id].name, t.byId[id].arguments)
  {
    hide ToolPositions, ToolDrafts;
  }

  lemma AddArgumentsFollows(s: State, l: Log, id: string, fragment: string)
    requires Agree(s, l) && l.started && id in s.table.byId
    ensures Follows(l, AddArguments(s, id, fragment))
  {
    hide ToolsAgree, Feed, Bodies, NewArguments, ToolPositions;
    var t := s.table.byId[id];
    var delta := NewArguments(t.arguments, fragment);
    var o := AddArguments(s, id, fragment);
    ToolStands(s.table, l.items, id);
    ActiveIgnored(s.table, id, l.items);
    if o.events == [] {
      FeedNone(l);
    } else {
      GrowArgumentsAgrees(s.table, l.items, id, t.arguments + delta);
      FeedOne(l, ArgumentsDelta("", id, Some(t.outputIndex), delta));
      BodiesOne(o.events[0]);
      ActiveIgnored(s.table.(byId := s.table.byId[id := t.(arguments := t.arguments + delta)]), id,
                    Feed(l, Bodies(o.events)).value.items);
    }
  }

  lemma ActiveIgnored(t: ToolTable, id: string, items: seq<Draft>)
    ensures ToolsAgree(t.(active := id), items) == ToolsAgree(t, items)
    ensures forall a :: ToolsAgree(t.(active := a), items) == ToolsAgree(t, items)
  {
  }

  lemma ToolFollows(s: State, l: Log, call: Call)
    requires Agree(s, l) && l.started
    ensures Follows(l, PushTool(s, call))
  {
    hide Agree, Feed, AddTool, AddArguments;
    var id := Addressee(s.table.active, call);
    if id == "" {
    } else if id in s.table.byId {
      AddArgumentsFollows(s, l, id, call.arguments);
    } else if call.name != "" {
      AddToolFollows(s, l, id, call.name);
      var added := AddTool(s, id, call.name);
      AddToolOk(s, id, call.name);
      StillStarted(l, added.events);
      AddArgumentsFollows(added.state, Feed(l, Bodies(added.events)).value, id, call.arguments);
      FeedAfter(l, added.events, AddArguments(added.state, id, call.arguments).events);
    }
  }

  lemma AddToolOk(s: State, id: string, name: string)
    ensures AddTool(s, id, name).ok
  {
  }

  lemma {:induction false} ToolsFollow(s: State, l: Log, calls: seq<Call>)
    requires Agree(s, l) && l.started
    ensures Follows(l, PushTools(s, calls))
  {
    hide Agree, Feed, PushTool;
    if calls == [] {
      FeedNone(l);
    } else {
      ToolsFollow(s, l, calls[..|calls| - 1]);
      var most := PushTools(s, calls[..|calls| - 1]);
      if most.ok {
        StillStarted(l, most.events);
        var last := calls[|calls| - 1];
        ToolFollows(most.state, Feed(l, Bodies(most.events)).value, last);
        FeedAfter(l, most.events, PushTool(most.state, last).events);
      }
    }
  }

  lemma BeginFollows(s: State, l: Log, f: Frame)
    requires Agree(s, l) && !(s.thought.done && f.signature != "")
    ensures Follows(l, Begin(s, f)) && Begin(s, f).ok && Begin(s, f).state.head.created
  {
    hide ToolsAgree, Open, Feed;
    OpenFollows(s.(head := Identify(s.head, f), thought := Sign(s.thought, f.signature)), l);
  }

  lemma DeltasFollow(s: State, l: Log, f: Frame)
    requires Agree(s, l) && l.started && (s.thought.done ==> f.thinking == "")
    ensures Follows(l, PushDeltas(s, f))
  {
    hide Agree, Feed, PushThinking, PushText;
    ThinkingFollows(s, l, f.thinking);
    var thinking := PushThinking(s, f.thinking);
    ThinkingOk(s, f.thinking);
    StillStarted(l, thinking.events);
    TextFollows(thinking.state, Feed(l, Bodies(thinking.events)).value, f.text);
    FeedAfter(l, thinking.events, PushText(thinking.state, f.text).events);
    TextOk(thinking.state, f.text);
  }

  lemma ThinkingOk(s: State, delta: string)
    ensures PushThinking(s, delta).ok
  {
  }

  lemma TextOk(s: State, delta: string)
    ensures PushText(s, delta).ok
  {
  }

  lemma StopAgrees(s: State, l: Log, f: Frame)
    requires Agree(s, l) && UsageInRange(f)
    ensures Agree(s.(head := Spend(Stop(s.head, f), f)), l)
  {
    hide ToolsAgree;
  }

  lemma AgreeStarted(s: State, l: Log)
    requires Agree(s, l)
    ensures l.started == s.head.created && (s.thought.done <==> l.reasoning.Some?)
  {
    hide ToolsAgree;
  }

  lemma BeginKeepsDone(s: State, f: Frame)
    ensures Begin(s, f).state.thought.done == s.thought.done
  {
  }

  /** A frame accepted by the mapper adds events that may come next, and keeps the agreement. */
  lemma PushFollows(s: State, l: Log, f: Frame)
    requires Agree(s, l)
    ensures Follows(l, Push(s, f))
  {
    if !(s.thought.done && (f.thinking != "" || f.signature != "")) && UsageInRange(f) {
      hide Agree, Feed, Begin, PushDeltas, PushTools, UsageInRange, Spend;
      var start := Begin(s, f);
      BeginFollows(s, l, f);
      BeginKeepsDone(s, f);
      var l1 := Feed(l, Bodies(start.events)).value;
      AgreeStarted(start.state, l1);
      StopAgrees(start.state, l1, f);
      var s1 := start.state.(head := Spend(Stop(start.state.head, f), f));
      DeltasFollow(s1, l1, f);
      DeltasOk(s1, f);
      var deltas := PushDeltas(s1, f);
      StillStarted(l1, deltas.events);
      FeedAfter(l, start.events, deltas.events);
      var earlier := start.events + deltas.events;
      var l2 := Feed(l, Bodies(earlier)).value;
      ToolsFollow(deltas.state, l2, f.calls);
      if PushTools(deltas.state, f.calls).ok {
        FeedAfter(l, earlier, PushTools(deltas.state, f.calls).events);
      }
      NotTerminal(s, l);
    }
  }

  lemma NotTerminal(s: State, l: Log)
    requires Agree(s, l)
    ensures !s.terminal && Tracked(s.table)
  {
    assert forall id :: id in s.table.order ==> id in s.table.byId;
  }

  lemma DeltasOk(s: State, f: Frame)
    ensures PushDeltas(s, f).ok
  {
  }

  /** All the frames of a stream, one after another. */
  function PushAll(s: State, frames: seq<Frame>): Outcome {
    if frames == [] then Done(s, [])
    else
      var most := PushAll(s, frames[..|frames| - 1]);
      if !most.ok then most else After(most.events, Push(most.state, frames[|frames| - 1]))
  }

  lemma {:induction false} PushAllFollows(s: State, l: Log, frames: seq<Frame>)
    requires Agree(s, l)
    ensures Follows(l, PushAll(s, frames))
  {
    hide Agree, Feed, Push;
    if frames == [] {
      FeedNone(l);
    } else {
      var most := PushAll(s, frames[..|frames| - 1]);
      PushAllFollows(s, l, frames[..|frames| - 1]);
      if most.ok {
        var last := frames[|frames| - 1];
        PushFollows(most.state, Feed(l, Bodies(most.events)).value, last);
        FeedAfter(l, most.events, Push(most.state, last).events);
      }
    }
  }

  /** Agreement while the stream is being closed: the first k tools and everything else are stored as rendered. */
  ghost predicate AgreeClosing(s: State, l: Log, k: nat) {
    && HeadAgrees(s, l) && ThoughtAgrees(s, l) && ToolsAgree(s.table, l.items)
    && l.started && ReasoningSettled(l) && (l.textAt.Some? ==> l.messageClosed)
    && l.argsClosed == l.itemsClosed == k <= ToolCount(l)
    && ClosedStored(s.sink.items, l, k)
  }

  ghost predicate ClosedStored(stored: map<int, Item>, l: Log, k: nat)
    requires k <= ToolCount(l)
  {
    && (forall p :: 0 <= p < |l.items| && !l.items[p].ToolDraft? ==> p in stored && stored[p] == Render(l, l.items[p]))
    && (forall i :: 0 <= i < k ==> IsStored(stored, l, ToolPositions(l.items)[i]))
  }

  ghost predicate IsStored(stored: map<int, Item>, l: Log, p: nat)
    requires p < |l.items|
  {
    p in stored && stored[p] == Render(l, l.items[p])
  }

  lemma CloseTextFollows(s: State, l: Log)
    requires Agree(s, l) && Consistent(l) && l.started && ReasoningSettled(l)
    ensures var o := CloseText(StoreReasoning(s));
            Feed(l, Bodies(o.events)).Some? && AgreeClosing(o.state, Feed(l, Bodies(o.events)).value, 0)
  {
    hide ToolsAgree, ToolsDistinct, ToolPositions, HasTool, Rendered, Feed;
    if s.prose.text == "" {
      FeedNone(l);
    } else {
      var o := CloseText(StoreReasoning(s));
      FeedOne(l, ItemDone("", s.prose.index, TextItem(s.prose.text)));
      BodiesOne(o.events[0]);
    }
  }

  lemma {:induction false} FeedKeepsConsistent(l: Log, bodies: seq<Body>)
    requires Consistent(l) && Feed(l, bodies).Some?
    ensures Consistent(Feed(l, bodies).value)
  {
    hide Advance, Consistent;
    if bodies != [] {
      FeedKeepsConsistent(l, bodies[..|bodies| - 1]);
      AdvanceConsistent(Feed(l, bodies[..|bodies| - 1]).value, bodies[|bodies| - 1]);
    }
  }

  lemma PrepareFollows(s: State, l: Log)
    requires Agree(s, l) && Consistent(l)
    ensures var o := PrepareFinal(s);
            o.ok && Feed(l, Bodies(o.events)).Some? && AgreeClosing(o.state, Feed(l, Bodies(o.events)).value, 0)
  {
    hide Feed, Open, CloseReasoning, CloseText, StoreReasoning, AgreeClosing, Consistent;
    var start := Open(s);
    OpenFollows(s, l);
    var l1 := Feed(l, Bodies(start.events)).value;
    AgreeStarted(start.state, l1);
    var reasoned := CloseReasoning(start.state);
    CloseReasoningFollows(start.state, l1);
    var l2 := Feed(l1, Bodies(reasoned.events)).value;
    StillStarted(l1, reasoned.events);
    FeedKeepsConsistent(l, Bodies(start.events));
    FeedKeepsConsistent(l1, Bodies(reasoned.events));
    FeedAfter(l, start.events, reasoned.events);
    CloseTextFollows(reasoned.state, l2);
    CloseTextOk(StoreReasoning(reasoned.state));
    FeedAfter(l, start.events + reasoned.events, CloseText(StoreReasoning(reasoned.state)).events);
  }

  lemma CloseTextOk(s: State)
    ensures CloseText(s).ok
  {
  }

  function CloseOne(l: Log): Log {
    l.(argsClosed := l.argsClosed + 1, itemsClosed := l.itemsClosed + 1)
  }

  lemma NextTool(s: State, l: Log, k: nat)
    requires AgreeClosing(s, l, k) && k < ToolCount(l)
    ensures k < |s.table.order| && s.table.order[k] in s.table.byId
    ensures s.table.byId[s.table.order[k]].outputIndex == ToolPositions(l.items)[k]
    ensures var t := s.table.byId[s.table.order[k]];
            l.items[ToolPositions(l.items)[k]] == ToolDraft(s.table.order[k], t.name, t.arguments)
  {
    hide ClosedStored;
  }

  /** The log stands before its next tool, ready to close it. */
  ghost predicate Closable(l: Log, id: string, name: string, arguments: string) {
    && l.started && l.final.None? && ReasoningSettled(l) && (l.textAt.Some? ==> l.messageClosed)
    && l.argsClosed == l.itemsClosed < ToolCount(l)
    && l.items[ToolPositions(l.items)[l.argsClosed]] == ToolDraft(id, name, arguments) && arguments != ""
  }

  lemma ArgumentsClose(l: Log, id: string, name: string, arguments: string)
    requires Closable(l, id, name, arguments)
    ensures Advance(l, ArgumentsDone("", id, Some(ToolPositions(l.items)[l.argsClosed]), arguments))
         == Some(l.(argsClosed := l.argsClosed + 1))
  {
    hide ToolPositions;
  }

  lemma ItemCloses(l: Log, id: string, name: string, arguments: string)
    requires Closable(l, id, name, arguments)
    ensures Advance(l.(argsClosed := l.argsClosed + 1),
                    ItemDone("", ToolPositions(l.items)[l.argsClosed], ToolItem(id, name, arguments)))
         == Some(CloseOne(l))
  {
    hide ToolPositions;
  }

  lemma CloseToolFeeds(l: Log, id: string, name: string, arguments: string)
    requires Closable(l, id, name, arguments)
    ensures var p := ToolPositions(l.items)[l.argsClosed];
            Feed(l, [ArgumentsDone("", id, Some(p), arguments), ItemDone("", p, ToolItem(id, name, arguments))])
              == Some(CloseOne(l))
  {
    hide Feed, Advance, ToolPositions;
    ArgumentsClose(l, id, name, arguments);
    ItemCloses(l, id, name, arguments);
    var p := ToolPositions(l.items)[l.argsClosed];
    FeedTwo(l, ArgumentsDone("", id, Some(p), arguments), ItemDone("", p, ToolItem(id, name, arguments)));
  }

  lemma CloseToolFollows(s: State, l: Log, k: nat, valid: JsonTest)
    requires AgreeClosing(s, l, k) && k < ToolCount(l)
    ensures k < |s.table.order| && s.table.order[k] in s.table.byId
    ensures var o := CloseTool(s, s.table.order[k], valid);
            o.ok ==> Feed(l, Bodies(o.events)) == Some(CloseOne(l)) && AgreeClosing(o.state, CloseOne(l), k + 1)
  {
    hide Feed, Rendered, Render, ToolPositions, ToolsAgree, ClosedStored;
    NextTool(s, l, k);
    var p := ToolPositions(l.items)[k];
    var id := s.table.order[k];
    var t := s.table.byId[id];
    var o := CloseTool(s, id, valid);
    if o.ok {
      StoredMore(s.sink.items, l, k);
      RenderTool(l, l.items[p]);
      DoneIgnored(s.table, id, l.items);
      CloseToolFeeds(l, id, t.name, t.arguments);
      assert Bodies(o.events)
          == [ArgumentsDone("", id, Some(p), t.arguments), ItemDone("", p, ToolItem(id, t.name, t.arguments))];
    }
  }

  lemma DoneIgnored(t: ToolTable, id: string, items: seq<Draft>)
    requires ToolsAgree(t, items) && id in t.byId
    ensures ToolsAgree(t.(byId := t.byId[id := t.byId[id].(done := true)]), items)
  {
    hide ToolPositions;
  }

  lemma RenderTool(l: Log, d: Draft)
    requires d.ToolDraft?
    ensures Render(l, d) == ToolItem(d.id, d.name, d.arguments)
  {
  }

  lemma StoredMore(stored: map<int, Item>, l: Log, k: nat)
    requires k == l.argsClosed < ToolCount(l) && ClosedStored(stored, l, k)
    ensures var p := ToolPositions(l.items)[k]; ClosedStored(stored[p := Render(l, l.items[p])], CloseOne(l), k + 1)
  {
    hide ToolPositions;
    var l2 := CloseOne(l);
    var p := ToolPositions(l.items)[k];
    var more := stored[p := Render(l, l.items[p])];
    forall i | 0 <= i < k + 1 ensures IsStored(more, l2, ToolPositions(l2.items)[i]) {
      assert i < k ==> IsStored(stored, l, ToolPositions(l.items)[i]);
    }
  }

  lemma {:induction false} CloseToolsFollow(s: State, l: Log, k: nat, valid: JsonTest)
    requires AgreeClosing(s, l, 0) && k <= ToolCount(l) && Tracked(s.table) && |s.table.order| == ToolCount(l)
    ensures var o := CloseTools(s, k, valid);
            o.ok ==> Feed(l, Bodies(o.events)) == Some(l.(argsClosed := k, itemsClosed := k))
    ensures var o := CloseTools(s, k, valid);
            o.ok ==> AgreeClosing(o.state, l.(argsClosed := k, itemsClosed := k), k)
  {
    hide Feed, CloseTool, ToolPositions, ToolsAgree, ThoughtAgrees, HeadAgrees, ClosedStored;
    if k == 0 {
      FeedNone(l);
    } else {
      CloseToolsFollow(s, l, k - 1, valid);
      var most := CloseTools(s, k - 1, valid);
      if most.ok {
        CloseToolFollows(most.state, l.(argsClosed := k - 1, itemsClosed := k - 1), k - 1, valid);
        var o := CloseTool(most.state, s.table.order[k - 1], valid);
        if o.ok {
          FeedAfter(l, most.events, o.events);
        }
      }
    }
  }

  lemma {:induction false} CollectRendered(stored: map<int, Item>, l: Log, n: nat)
    requires n <= |l.items| && forall p :: 0 <= p < n ==> IsStored(stored, l, p)
    ensures Collect(stored, n) == Rendered(l)[..n]
  {
    if n > 0 {
      CollectRendered(stored, l, n - 1);
      assert IsStored(stored, l, n - 1);
      assert Rendered(l)[..n] == Rendered(l)[..n - 1] + [Render(l, l.items[n - 1])];
    }
  }

  lemma AllStored(stored: map<int, Item>, l: Log)
    requires ClosedStored(stored, l, ToolCount(l))
    ensures forall p :: 0 <= p < |l.items| ==> IsStored(stored, l, p)
  {
    hide Render;
    forall p | 0 <= p < |l.items| ensures IsStored(stored, l, p) {
      if l.items[p].ToolDraft? {
        assert p in ToolPositions(l.items);
      }
    }
  }

  /** What is stored when everything has been closed is what the log renders. */
  lemma CollectsAll(s: State, l: Log)
    requires AgreeClosing(s, l, ToolCount(l))
    ensures |l.items| == s.sink.next && ToolsAgree(s.table, l.items)
    ensures Collect(s.sink.items, s.sink.next) == Rendered(l)
  {
    AllStored(s.sink.items, l);
    hide ToolsAgree, ToolPositions, Render, Collect, ClosedStored, IsStored, ThoughtAgrees;
    CollectRendered(s.sink.items, l, |l.items|);
    assert Rendered(l)[..|l.items|] == Rendered(l);
  }

  lemma ConcludesWith(s: State, l: Log)
    requires AgreeClosing(s, l, ToolCount(l)) && Collect(s.sink.items, s.sink.next) == Rendered(l)
    ensures Conclude(l, Some(FinalResponse(s))) == Some(l.(final := Some(FinalResponse(s))))
  {
    hide ToolsAgree, ToolPositions, Render, Rendered, Collect, ClosedStored, IsStored, ThoughtAgrees, IncompleteReason,
         Model;
  }

  lemma TerminateConcludes(s: State, l: Log)
    ensures var o := Terminate(s);
            o.ok && |o.events| == 1 && Advance(l, o.events[0].body) == Conclude(l, Some(FinalResponse(s)))
  {
    hide FinalResponse, Conclude;
  }

  lemma TerminateFollows(s: State, l: Log)
    requires AgreeClosing(s, l, ToolCount(l))
    ensures |l.items| == s.sink.next && ToolsAgree(s.table, l.items)
    ensures var o := Terminate(s);
            o.ok && Feed(l, Bodies(o.events)) == Some(l.(final := Some(FinalResponse(s))))
  {
    CollectsAll(s, l);
    ConcludesWith(s, l);
    TerminateConcludes(s, l);
    hide *;
    var e := Terminate(s).events[0];
    BodiesOne(e);
    FeedOne(l, e.body);
    assert Terminate(s).events == [e];
  }

  /** A whole run: the frames, then the end of the stream. */
  function Run(s: State, frames: seq<Frame>, valid: JsonTest): Outcome {
    var pushed := PushAll(s, frames);
    if !pushed.ok || !Tracked(pushed.state.table) then Fail(pushed.state)
    else After(pushed.events, Finalize(pushed.state, valid))
  }

  lemma FinalizeFollows(s: State, l: Log, valid: JsonTest)
    requires Agree(s, l) && Consistent(l)
    ensures Tracked(s.table)
    ensures var o := Finalize(s, valid);
            var fed := Feed(l, Bodies(o.events));
            o.ok ==> fed.Some? && fed.value.final == Some(FinalResponse(o.state))
    ensures var o := Finalize(s, valid);
            var fed := Feed(l, Bodies(o.events));
            o.ok ==> |fed.value.items| == o.state.sink.next && ToolsAgree(o.state.table, fed.value.items)
  {
    NotTerminal(s, l);
    hide AgreeClosing, Feed, PrepareFinal, CloseTools, Terminate, ToolPositions, Consistent, FinalResponse, ToolsAgree;
    var prepared := PrepareFinal(s);
    PrepareFollows(s, l);
    var l1 := Feed(l, Bodies(prepared.events)).value;
    PrepareKeepsTable(s);
    ClosingTable(prepared.state, l1, 0);
    var tools := CloseTools(prepared.state, |s.table.order|, valid);
    CloseToolsFollow(prepared.state, l1, |s.table.order|, valid);
    if s.head.stop != StopError && tools.ok {
      var l2 := Feed(l1, Bodies(tools.events)).value;
      FeedAfter(l, prepared.events, tools.events);
      TerminateFollows(tools.state, l2);
      FeedAfter(l, prepared.events + tools.events, Terminate(tools.state).events);
      TerminateKeepsResponse(tools.state);
    }
  }

  lemma TerminateKeepsResponse(s: State)
    ensures FinalResponse(Terminate(s).state) == FinalResponse(s)
    ensures Terminate(s).state.table == s.table && Terminate(s).state.sink.next == s.sink.next
  {
  }

  lemma PrepareKeepsTable(s: State)
    ensures PrepareFinal(s).state.table == s.table
  {
  }

  lemma ClosingTable(s: State, l: Log, k: nat)
    requires AgreeClosing(s, l, k)
    ensures |s.table.order| == ToolCount(l) && Tracked(s.table)
  {
    assert forall id :: id in s.table.order ==> id in s.table.byId;
  }

  /**
   Conservation over a run: the events of every accepted run conform. Their log delivers the accumulated
   thinking, text and tool arguments, has one item per output index, and ends in a response whose output is that
   list of items, each the concatenation of its deltas, under the response id announced first.
   */
  lemma RunConforms(model: string, id: string, limit: int, frames: seq<Frame>, valid: JsonTest)
    requires Run(Initial(model, id, limit), frames, valid).ok
    ensures Conforms(Bodies(Run(Initial(model, id, limit), frames, valid).events))
    ensures var o := Run(Initial(model, id, limit), frames, valid);
            var l := Feed(EMPTY_LOG, Bodies(o.events)).value;
            l.final == Some(FinalResponse(o.state)) && |l.items| == o.state.sink.next
              && ToolsAgree(o.state.table, l.items)
  {
    hide Agree, Feed, PushAll, Finalize, Consistent, ToolsAgree;
    var s := Initial(model, id, limit);
    InitialAgrees(model, id, limit);
    PushAllFollows(s, EMPTY_LOG, frames);
    var pushed := PushAll(s, frames);
    var l := Feed(EMPTY_LOG, Bodies(pushed.events)).value;
    FeedConsistent(Bodies(pushed.events));
    FinalizeFollows(pushed.state, l, valid);
    FeedAfter(EMPTY_LOG, pushed.events, Finalize(pushed.state, valid).events);
  }
}
