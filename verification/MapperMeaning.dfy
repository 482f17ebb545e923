/**
 The mapper against its frames: a run is accepted exactly when the frames fit
 together, and its events and response say what the frames say.
 */
module MapperMeaning {
  import opened Basics
  import opened CanonicalEvents
  import opened FrameMeaning
  import opened StreamProtocol
  import opened MapperSteps
  import opened MapperConformance
  import opened MapperResults

  ghost predicate HeadMeans(h: Head, frames: seq<Frame>, selected: string, given: string) {
    && h.selectedModel == selected && Model(h) == LastModel(frames, selected)
    && h.responseId == ResponseId(frames, given) && (h.created <==> frames != [])
    && h.stop == LastStop(frames) && h.usage == LastUsage(frames)
  }

  ghost predicate SpeechMeans(t: Thought, p: Prose, frames: seq<Frame>) {
    && t.text == Thinkings(frames) && t.signature == LastSignature(frames) && p.text == Texts(frames)
    && (t.index >= 0 <==> Thinkings(frames) != "") && (p.index >= 0 <==> Texts(frames) != "")
    && (t.done <==> ThoughtEnded(frames)) && (t.open <==> t.index >= 0 && !t.done)
  }

  /** What the table has about one tool is what the calls say about it. */
  ghost predicate ToolMeans(t: ToolTable, calls: seq<Call>, id: string, limit: int) {
    && (id in t.byId <==> NameOf(calls, id) != "")
    && (id in t.byId ==> t.byId[id].name == NameOf(calls, id) && t.byId[id].arguments == ArgumentsFor(calls, id))
    && (id in t.byId ==> |t.byId[id].arguments| <= limit)
    && (id !in t.byId ==> FragmentsFor(calls, id) == [])
  }

  ghost predicate TableMeans(t: ToolTable, calls: seq<Call>, limit: int) {
    t.active == ActiveAfter(calls) && forall id :: ToolMeans(t, calls, id, limit)
  }

  /** What a slot is for has its index. */
  predicate Stands(s: State, slot: Slot, p: nat) {
    match slot
    case ThinkingSlot => s.thought.index == p
    case TextSlot => s.prose.index == p
    case ToolSlot(id, name) => id in s.table.byId && s.table.byId[id].outputIndex == p && s.table.byId[id].name == name
  }

  ghost predicate Placed(s: State, slots: seq<Slot>) {
    |slots| == s.sink.next && forall p :: 0 <= p < |slots| ==> Stands(s, slots[p], p)
  }

  ghost predicate Means(s: State, frames: seq<Frame>, selected: string, given: string, limit: int) {
    && !s.terminal && s.maxToolBytes == limit
    && HeadMeans(s.head, frames, selected, given) && SpeechMeans(s.thought, s.prose, frames)
    && TableMeans(s.table, AllCalls(frames), limit) && Placed(s, Slots(frames))
  }

  lemma InitialMeans(selected: string, given: string, limit: int)
    requires limit >= 0
    ensures Means(Initial(selected, given, limit), [], selected, given, limit)
  {
  }

  // ----- One frame -----

  lemma HeadStep(h: Head, frames: seq<Frame>, selected: string, given: string)
    requires frames != [] && HeadMeans(h, frames[..|frames| - 1], selected, given)
    requires UsageInRange(frames[|frames| - 1])
    ensures var f := frames[|frames| - 1];
            HeadMeans(Spend(Stop(Identify(h, f).(created := true), f), f), frames, selected, given)
  {
    assert Blank("");
    hide Blank;
  }

  lemma UsageRange(f: Frame)
    ensures UsageInRange(f) <==> UsageFits(f)
  {
  }

  lemma EndedMore(frames: seq<Frame>)
    requires frames != []
    ensures var most, last := frames[..|frames| - 1], frames[|frames| - 1];
            ThoughtEnded(frames) <==> ThoughtEnded(most) || (last.text != "" && Thinkings(frames) != "")
  {
    hide Thinkings;
    var most := frames[..|frames| - 1];
    assert frames[..|frames|] == frames;
    if ThoughtEnded(frames) {
      var k :| 0 <= k < |frames| && frames[k].text != "" && Thinkings(frames[..k + 1]) != "";
      if k < |most| { assert most[..k + 1] == frames[..k + 1] && most[k] == frames[k]; }
    }
    if ThoughtEnded(most) {
      var k :| 0 <= k < |most| && most[k].text != "" && Thinkings(most[..k + 1]) != "";
      assert most[..k + 1] == frames[..k + 1] && most[k] == frames[k];
    }
  }

  /** What one frame's speech leaves in the fields. */
  lemma DeltasSay(s: State, f: Frame)
    requires s.thought.open <==> s.thought.index >= 0 && !s.thought.done
    requires s.thought.done ==> f.thinking == "" && s.thought.index >= 0
    ensures var n := PushDeltas(s, f).state;
            && n.head == s.head && n.table == s.table && n.maxToolBytes == s.maxToolBytes && n.terminal == s.terminal
            && n.thought.text == s.thought.text + f.thinking && n.prose.text == s.prose.text + f.text
            && n.thought.signature == s.thought.signature
            && n.thought.index == (if f.thinking != "" && s.thought.index < 0 then s.sink.next else s.thought.index)
            && (n.thought.done <==> s.thought.done || (f.text != "" && n.thought.index >= 0))
            && (n.thought.open <==> n.thought.index >= 0 && !n.thought.done)
            && var next := s.sink.next + (if f.thinking != "" && s.thought.index < 0 then 1 else 0);
               && n.prose.index == (if f.text != "" && s.prose.index < 0 then next else s.prose.index)
               && n.sink.next == next + (if f.text != "" && s.prose.index < 0 then 1 else 0)
  {
  }

  lemma SpeechStep(s: State, frames: seq<Frame>)
    requires frames != []
    requires var most, f := frames[..|frames| - 1], frames[|frames| - 1];
             && SpeechMeans(s.thought, s.prose, most)
             && (ThoughtEnded(most) ==> f.thinking == "" == f.signature)
    ensures var f := frames[|frames| - 1];
            var n := PushDeltas(s.(thought := Sign(s.thought, f.signature)), f).state;
            SpeechMeans(n.thought, n.prose, frames)
  {
    var most, f := frames[..|frames| - 1], frames[|frames| - 1];
    EndedThought(most);
    EndedMore(frames);
    DeltasSay(s.(thought := Sign(s.thought, f.signature)), f);
    hide PushDeltas, ThoughtEnded;
  }

  lemma EndedThought(frames: seq<Frame>)
    ensures ThoughtEnded(frames) ==> Thinkings(frames) != ""
  {
    if ThoughtEnded(frames) {
      var k :| 0 <= k < |frames| && frames[k].text != "" && Thinkings(frames[..k + 1]) != "";
      ThinkingsGrow(frames, k + 1);
    }
  }

  lemma {:induction false} ThinkingsGrow(frames: seq<Frame>, k: nat)
    requires k <= |frames|
    ensures Thinkings(frames[..k]) <= Thinkings(frames)
    decreases |frames|
  {
    if k == |frames| {
      assert frames[..k] == frames;
    } else {
      assert frames[..|frames| - 1][..k] == frames[..k];
      ThinkingsGrow(frames[..|frames| - 1], k);
    }
  }

  function SpeechSlots(frames: seq<Frame>): seq<Slot>
    requires frames != []
  {
    var most, last := frames[..|frames| - 1], frames[|frames| - 1];
    Slots(most) + (if Thinkings(most) == "" && last.thinking != "" then [ThinkingSlot] else [])
      + (if Texts(most) == "" && last.text != "" then [TextSlot] else [])
  }

  /** One more slot at the end, and the others where they were. */
  lemma PlacedMore(s: State, n: State, slots: seq<Slot>, slot: Slot)
    requires Placed(s, slots) && n.sink.next == s.sink.next + 1 && n.table == s.table && Stands(n, slot, |slots|)
    requires s.thought.index < 0 || n.thought.index == s.thought.index
    requires s.prose.index < 0 || n.prose.index == s.prose.index
    ensures Placed(n, slots + [slot])
  {
    forall p | 0 <= p < |slots + [slot]| ensures Stands(n, (slots + [slot])[p], p) {
      if p < |slots| { assert Stands(s, slots[p], p); }
    }
    hide Stands;
  }

  lemma PlacedStill(s: State, n: State, slots: seq<Slot>)
    requires Placed(s, slots) && n.sink.next == s.sink.next && n.table == s.table
    requires n.thought.index == s.thought.index && n.prose.index == s.prose.index
    ensures Placed(n, slots)
  {
    forall p | 0 <= p < |slots| ensures Stands(n, slots[p], p) { assert Stands(s, slots[p], p); }
    hide Stands;
  }

  lemma SpeechPlaced(s: State, frames: seq<Frame>)
    requires frames != []
    requires var most, f := frames[..|frames| - 1], frames[|frames| - 1];
             && SpeechMeans(s.thought, s.prose, most) && Placed(s, Slots(most))
             && (ThoughtEnded(most) ==> f.thinking == "" == f.signature)
    ensures var f := frames[|frames| - 1];
            Placed(PushDeltas(s.(thought := Sign(s.thought, f.signature)), f).state, SpeechSlots(frames))
  {
    var most, f := frames[..|frames| - 1], frames[|frames| - 1];
    EndedThought(most);
    DeltasSay(s.(thought := Sign(s.thought, f.signature)), f);
    hide PushDeltas, ThoughtEnded, Slots, Thinkings, Texts, LastSignature, Placed;
    var n := PushDeltas(s.(thought := Sign(s.thought, f.signature)), f).state;
    PlacedSize(s, Slots(most));
    var slots := Slots(most) + if Thinkings(most) == "" && f.thinking != "" then [ThinkingSlot] else [];
    var middle := s.(thought := n.thought, sink := s.sink.(next := |slots|));
    if f.thinking != "" && s.thought.index < 0 {
      PlacedMore(s, middle, Slots(most), ThinkingSlot);
    } else {
      PlacedStill(s, middle, Slots(most));
      assert slots == Slots(most);
    }
    if f.text != "" && s.prose.index < 0 {
      PlacedSize(middle, slots);
      PlacedMore(middle, n, slots, TextSlot);
    } else {
      PlacedStill(middle, n, slots);
      assert SpeechSlots(frames) == slots;
    }
  }

  lemma PlacedSize(s: State, slots: seq<Slot>)
    requires Placed(s, slots)
    ensures |slots| == s.sink.next
  {
  }

  // ----- Tool calls -----

  lemma CallsMore(calls: seq<Call>, call: Call, id: string)
    ensures var more := calls + [call];
            && ActiveAfter(more) == (if call.id != "" then call.id else ActiveAfter(calls))
            && FragmentsFor(more, id)
               == FragmentsFor(calls, id) + (if ActiveAfter(more) == id then [call.arguments] else [])
            && NameOf(more, id)
               == if NameOf(calls, id) != "" then NameOf(calls, id)
                  else if ActiveAfter(more) == id then call.name else ""
  {
    var more := calls + [call];
    assert more[..|more| - 1] == calls && more[|more| - 1] == call;
  }

  lemma AddArgumentsFits(s: State, id: string, fragment: string)
    requires id in s.table.byId && |s.table.byId[id].arguments| <= s.maxToolBytes
    ensures AddArguments(s, id, fragment).ok
       <==> |Accumulate(s.table.byId[id].arguments, fragment)| <= s.maxToolBytes
  {
  }

  lemma AddToolSays(s: State, id: string, name: string)
    ensures var o := AddTool(s, id, name);
            o.ok && o.state.maxToolBytes == s.maxToolBytes && o.state.table.byId[id].arguments == ""
  {
  }

  lemma PushToolFits(s: State, calls: seq<Call>, call: Call, limit: int)
    requires TableMeans(s.table, calls, limit) && s.maxToolBytes == limit >= 0
    requires var id := Addressee(s.table.active, call);
             && ActiveAfter(calls + [call]) == id && (calls + [call])[..|calls|] == calls
             && ArgumentsFor(calls + [call], id) == Accumulate(ArgumentsFor(calls, id), call.arguments)
             && (id !in s.table.byId ==> ArgumentsFor(calls, id) == "")
    ensures PushTool(s, call).ok <==> LastCallFits(calls + [call], limit)
  {
    hide ActiveAfter, ArgumentsFor, NameOf, AddArguments, AddTool, Accumulate;
    var id := Addressee(s.table.active, call);
    assert ToolMeans(s.table, calls, id, limit);
    if id in s.table.byId {
      AddArgumentsFits(s, id, call.arguments);
    } else {
      AddToolSays(s, id, call.name);
      AddArgumentsFits(AddTool(s, id, call.name).state, id, call.arguments);
    }
  }

  lemma PushToolNames(s: State, call: Call)
    requires PushTool(s, call).ok
    ensures var id := Addressee(s.table.active, call);
            var t := PushTool(s, call).state.table;
            id in t.byId && t.byId[id].name == if id in s.table.byId then s.table.byId[id].name else call.name
    ensures Addressee(s.table.active, call) !in s.table.byId ==> call.name != ""
  {
  }

  /** The named tool takes in a call. */
  lemma NamedGrows(t: ToolTable, n: ToolTable, calls: seq<Call>, call: Call, limit: int)
    requires TableMeans(t, calls, limit) && limit >= 0
    requires var id := Addressee(t.active, call);
             && TakesIn(t, n, id, call.arguments, limit)
             && n.byId[id].name == (if id in t.byId then t.byId[id].name else call.name) != ""
    ensures ToolMeans(n, calls + [call], Addressee(t.active, call), limit)
  {
    hide ActiveAfter, FragmentsFor, NameOf, Accumulated, Accumulate;
    var id := Addressee(t.active, call);
    NothingAccumulated();
    AccumulatedMore(FragmentsFor(calls, id), call.arguments);
    CallsMore(calls, call, id);
    assert ToolMeans(t, calls, id, limit);
  }

  /** And the others are as they were. */
  lemma OthersStay(t: ToolTable, n: ToolTable, calls: seq<Call>, call: Call, limit: int, other: string)
    requires TableMeans(t, calls, limit) && TakesIn(t, n, Addressee(t.active, call), call.arguments, limit)
    requires other != Addressee(t.active, call)
    ensures ToolMeans(n, calls + [call], other, limit)
  {
    hide ActiveAfter, FragmentsFor, NameOf, Accumulated, Accumulate;
    CallsMore(calls, call, other);
    assert FragmentsFor(calls, other) + [] == FragmentsFor(calls, other);
    assert ToolMeans(t, calls, other, limit);
  }

  lemma TableGrows(t: ToolTable, n: ToolTable, calls: seq<Call>, call: Call, limit: int)
    requires TableMeans(t, calls, limit) && limit >= 0
    requires var id := Addressee(t.active, call);
             && TakesIn(t, n, id, call.arguments, limit)
             && n.byId[id].name == (if id in t.byId then t.byId[id].name else call.name) != ""
    ensures TableMeans(n, calls + [call], limit)
  {
    hide ActiveAfter, ToolMeans;
    var id := Addressee(t.active, call);
    forall other ensures ToolMeans(n, calls + [call], other, limit) {
      if other == id { NamedGrows(t, n, calls, call, limit); } else { OthersStay(t, n, calls, call, limit, other); }
    }
    CallsMore(calls, call, id);
  }

  lemma NamesKnown(t: ToolTable, calls: seq<Call>, limit: int, id: string)
    requires TableMeans(t, calls, limit) && id in t.byId
    ensures t.byId[id].name != ""
  {
    hide NameOf;
    assert ToolMeans(t, calls, id, limit);
  }

  lemma UnnamedHasNothing(t: ToolTable, calls: seq<Call>, limit: int, id: string)
    requires TableMeans(t, calls, limit) && id !in t.byId
    ensures ArgumentsFor(calls, id) == ""
  {
    hide NameOf, FragmentsFor;
    assert ToolMeans(t, calls, id, limit);
  }

  /** The table takes in a call exactly when the call fits. */
  lemma PushToolMeans(s: State, calls: seq<Call>, call: Call, limit: int)
    requires TableMeans(s.table, calls, limit) && s.maxToolBytes == limit >= 0
    ensures PushTool(s, call).ok <==> LastCallFits(calls + [call], limit)
    ensures PushTool(s, call).ok ==> TableMeans(PushTool(s, call).state.table, calls + [call], limit)
  {
    hide PushTool, ActiveAfter, FragmentsFor, NameOf, Accumulated, Accumulate, LastCallFits, TakesIn, ToolMeans;
    var id := Addressee(s.table.active, call);
    CallsMore(calls, call, id);
    AccumulatedMore(FragmentsFor(calls, id), call.arguments);
    assert (calls + [call])[..|calls|] == calls;
    if id !in s.table.byId { UnnamedHasNothing(s.table, calls, limit, id); }
    PushToolFits(s, calls, call, limit);
    if PushTool(s, call).ok {
      PushToolEffect(s, call);
      PushToolNames(s, call);
      if id in s.table.byId { NamesKnown(s.table, calls, limit, id); }
      TableGrows(s.table, PushTool(s, call).state.table, calls, call, limit);
    }
  }

  lemma PushToolPlaced(s: State, slots: seq<Slot>, call: Call)
    requires Placed(s, slots) && PushTool(s, call).ok
    ensures var id := Addressee(s.table.active, call);
            Placed(PushTool(s, call).state, slots + if id in s.table.byId then [] else [ToolSlot(id, call.name)])
  {
    hide NewArguments;
  }

  lemma FitsMore(calls: seq<Call>, limit: int)
    requires calls != []
    ensures CallsFit(calls, limit) <==> CallsFit(calls[..|calls| - 1], limit) && LastCallFits(calls, limit)
  {
    hide LastCallFits;
    var most := calls[..|calls| - 1];
    assert calls[..|calls|] == calls;
    if CallsFit(calls, limit) {
      forall k | 0 < k <= |most| ensures LastCallFits(most[..k], limit) { assert most[..k] == calls[..k]; }
    }
    if CallsFit(most, limit) && LastCallFits(calls, limit) {
      forall k | 0 < k <= |calls| ensures LastCallFits(calls[..k], limit) {
        if k < |calls| { assert most[..k] == calls[..k]; }
      }
    }
  }

  lemma {:induction false} PushToolsMean(s: State, before: seq<Call>, calls: seq<Call>, slots: seq<Slot>, limit: int)
    requires TableMeans(s.table, before, limit) && CallsFit(before, limit) && Placed(s, slots)
    requires s.maxToolBytes == limit >= 0
    ensures var o := PushTools(s, calls);
            && (o.ok <==> CallsFit(before + calls, limit))
            && (o.ok ==> TableMeans(o.state.table, before + calls, limit) && CallsSpare(s, o.state))
            && (o.ok ==> Placed(o.state, slots + NewTools(before, calls)))
  {
    hide TableMeans, LastCallFits, Placed, PushTool, CallsFit;
    if calls == [] {
      assert before + calls == before && slots + NewTools(before, calls) == slots;
    } else {
      var most, last := calls[..|calls| - 1], calls[|calls| - 1];
      var o := PushTools(s, most);
      PushToolsMean(s, before, most, slots, limit);
      assert before + calls == (before + most) + [last] && (before + calls)[..|before + calls| - 1] == before + most;
      FitsMore(before + calls, limit);
      if o.ok {
        PushToolMeans(o.state, before + most, last, limit);
        if PushTool(o.state, last).ok {
          PushToolPlaced(o.state, slots + NewTools(before, most), last);
          PushToolSpares(o.state, last);
          NewToolsMore(o.state.table, before, calls, limit);
          assert slots + NewTools(before, calls)
              == slots + NewTools(before, most)
                 + if Addressee(o.state.table.active, last) in o.state.table.byId then []
                   else [ToolSlot(Addressee(o.state.table.active, last), last.name)];
        }
      }
    }
  }

  /** What calls leave alone. */
  predicate CallsSpare(s: State, n: State) {
    && n.head == s.head && n.thought == s.thought && n.prose == s.prose
    && n.terminal == s.terminal && n.maxToolBytes == s.maxToolBytes
  }

  lemma PushToolSpares(s: State, call: Call)
    ensures CallsSpare(s, PushTool(s, call).state)
  {
    var id := Addressee(s.table.active, call);
    ArgumentsSpare(AddTool(s, id, call.name).state, id, call.arguments);
    if id in s.table.byId { ArgumentsSpare(s, id, call.arguments); }
    hide AddArguments;
  }

  lemma ArgumentsSpare(s: State, id: string, fragment: string)
    requires id in s.table.byId
    ensures CallsSpare(s, AddArguments(s, id, fragment).state)
  {
    hide NewArguments;
  }

  lemma NewToolsMore(t: ToolTable, before: seq<Call>, calls: seq<Call>, limit: int)
    requires calls != [] && TableMeans(t, before + calls[..|calls| - 1], limit)
    ensures var most, last := calls[..|calls| - 1], calls[|calls| - 1];
            var id := Addressee(t.active, last);
            NewTools(before, calls)
              == NewTools(before, most) + if id in t.byId then [] else [ToolSlot(id, last.name)]
  {
    hide NameOf, ActiveAfter;
    var most, last := calls[..|calls| - 1], calls[|calls| - 1];
    assert before + calls == (before + most) + [last];
    CallsMore(before + most, last, "");
    assert ToolMeans(t, before + most, Addressee(t.active, last), limit);
  }

  // ----- All frames -----

  /** The frame after these that can be pushed. */
  predicate NextFits(frames: seq<Frame>, limit: int)
    requires frames != []
  {
    var most, f := frames[..|frames| - 1], frames[|frames| - 1];
    (ThoughtEnded(most) ==> f.thinking == "" == f.signature) && UsageFits(f) && CallsFit(AllCalls(frames), limit)
  }

  lemma FramesFitMore(frames: seq<Frame>, limit: int)
    requires frames != []
    ensures FramesFit(frames, limit) <==> FramesFit(frames[..|frames| - 1], limit) && NextFits(frames, limit)
  {
    hide ThoughtEnded, UsageFits, LastCallFits;
    var most, f := frames[..|frames| - 1], frames[|frames| - 1];
    if CallsFit(AllCalls(frames), limit) { FewerFit(AllCalls(most), f.calls, limit); }
    if FramesFit(most, limit) && NextFits(frames, limit) {
      forall k | 0 <= k < |frames| && ThoughtEnded(frames[..k])
        ensures frames[k].thinking == "" == frames[k].signature
      {
        if k < |most| { assert most[..k] == frames[..k] && most[k] == frames[k]; }
      }
      forall k | 0 <= k < |frames| ensures UsageFits(frames[k]) {
        if k < |most| { assert most[k] == frames[k]; }
      }
    }
    if FramesFit(frames, limit) {
      forall k | 0 <= k < |most| && ThoughtEnded(most[..k]) ensures most[k].thinking == "" == most[k].signature {
        assert most[..k] == frames[..k] && most[k] == frames[k];
      }
    }
  }

  lemma FewerFit(before: seq<Call>, calls: seq<Call>, limit: int)
    requires CallsFit(before + calls, limit)
    ensures CallsFit(before, limit)
  {
    hide LastCallFits;
    forall k | 0 < k <= |before| ensures LastCallFits(before[..k], limit) {
      assert (before + calls)[..k] == before[..k];
    }
  }

  lemma SpeechSays(t: Thought, p: Prose, frames: seq<Frame>)
    requires SpeechMeans(t, p, frames)
    ensures t.done <==> ThoughtEnded(frames)
  {
    hide ThoughtEnded;
  }

  lemma BeginSays(s: State, f: Frame)
    ensures var o := Begin(s, f);
            && o.ok && o.state.head == Identify(s.head, f).(created := true)
            && o.state.thought == Sign(s.thought, f.signature) && o.state.prose == s.prose && o.state.table == s.table
            && o.state.sink.next == s.sink.next
            && o.state.maxToolBytes == s.maxToolBytes && o.state.terminal == s.terminal
  {
    hide Sign;
  }

  lemma PlacedAlike(s: State, n: State, slots: seq<Slot>)
    requires Placed(s, slots) && s.sink.next == n.sink.next
    requires s.thought == n.thought && s.prose == n.prose && s.table == n.table
    ensures Placed(n, slots)
  {
  }

  lemma DeltasSpare(s: State, f: Frame)
    ensures var o := PushDeltas(s, f);
            && o.ok && o.state.head == s.head && o.state.table == s.table
            && o.state.maxToolBytes == s.maxToolBytes && o.state.terminal == s.terminal
  {
  }

  lemma SlotsMore(frames: seq<Frame>)
    requires frames != []
    ensures var most, f := frames[..|frames| - 1], frames[|frames| - 1];
            Slots(frames) == SpeechSlots(frames) + NewTools(AllCalls(most), f.calls)
  {
    hide NewTools, AllCalls, Thinkings, Texts;
  }

  lemma PushMeans(s: State, frames: seq<Frame>, selected: string, given: string, limit: int)
    requires frames != [] && limit >= 0
    requires Means(s, frames[..|frames| - 1], selected, given, limit)
    requires CallsFit(AllCalls(frames[..|frames| - 1]), limit)
    ensures var o := Push(s, frames[|frames| - 1]);
            (o.ok <==> NextFits(frames, limit)) && (o.ok ==> Means(o.state, frames, selected, given, limit))
  {
    hide ThoughtEnded, HeadMeans, SpeechMeans, TableMeans, Placed, CallsFit, PushTools, PushDeltas, UsageFits,
         UsageInRange, Identify, Stop, Spend, Sign, Slots, NewTools;
    var most, f := frames[..|frames| - 1], frames[|frames| - 1];
    UsageRange(f);
    SpeechSays(s.thought, s.prose, most);
    if (ThoughtEnded(most) ==> f.thinking == "" == f.signature) && UsageFits(f) {
      var start := Begin(s, f).state;
      var s1 := start.(head := Spend(Stop(start.head, f), f));
      BeginSays(s, f);
      HeadStep(s.head, frames, selected, given);
      PlacedAlike(s, s1.(thought := s.thought), Slots(most));
      SpeechStep(s1.(thought := s.thought), frames);
      SpeechPlaced(s1.(thought := s.thought), frames);
      var deltas := PushDeltas(s1, f).state;
      DeltasSpare(s1, f);
      PushToolsMean(deltas, AllCalls(most), f.calls, SpeechSlots(frames), limit);
      SlotsMore(frames);
      if PushTools(deltas, f.calls).ok { assert Push(s, f).state == PushTools(deltas, f.calls).state; }
    }
  }

  lemma {:induction false} PushAllMeans(frames: seq<Frame>, selected: string, given: string, limit: int)
    requires limit >= 0
    ensures var o := PushAll(Initial(selected, given, limit), frames);
            (o.ok <==> FramesFit(frames, limit)) && (o.ok ==> Means(o.state, frames, selected, given, limit))
  {
    hide Means, Push, FramesFit, NextFits;
    if frames == [] {
      InitialMeans(selected, given, limit);
      NoFramesFit(limit);
    } else {
      var most := frames[..|frames| - 1];
      PushAllMeans(most, selected, given, limit);
      FramesFitMore(frames, limit);
      var o := PushAll(Initial(selected, given, limit), most);
      if o.ok {
        assert CallsFit(AllCalls(most), limit) by { FitSays(most, limit); }
        PushMeans(o.state, frames, selected, given, limit);
      }
    }
  }

  lemma NoFramesFit(limit: int)
    ensures FramesFit([], limit)
  {
  }

  lemma FitSays(frames: seq<Frame>, limit: int)
    requires FramesFit(frames, limit)
    ensures CallsFit(AllCalls(frames), limit)
  {
    hide CallsFit, ThoughtEnded;
  }

  // ----- The end of a run -----

  lemma PrepareSays(s: State)
    ensures var o := PrepareFinal(s);
            && o.ok && o.state.head == s.head.(created := true) && o.state.prose == s.prose && o.state.table == s.table
            && o.state.thought.text == s.thought.text && o.state.thought.signature == s.thought.signature
            && o.state.thought.index == s.thought.index && o.state.sink.next == s.sink.next
  {
  }

  /** Tools differ only in being done. */
  ghost predicate SameTools(t: ToolTable, n: ToolTable) {
    && n.order == t.order && n.byId.Keys == t.byId.Keys
    && forall id :: id in t.byId ==> n.byId[id].(done := true) == t.byId[id].(done := true)
  }

  /** Tools are closed exactly when their arguments are valid. */
  lemma {:induction false} CloseToolsSay(s: State, k: nat, valid: JsonTest)
    requires Tracked(s.table) && k <= |s.table.order|
    ensures var o := CloseTools(s, k, valid);
            && (o.ok <==> forall i :: 0 <= i < k ==> valid(s.table.byId[s.table.order[i]].arguments))
            && o.state.head == s.head && o.state.thought == s.thought && o.state.prose == s.prose
            && o.state.sink.next == s.sink.next && SameTools(s.table, o.state.table)
  {
    hide CloseTool, SameTools;
    if k == 0 {
      ToolsAlike(s.table);
    } else {
      CloseToolsSay(s, k - 1, valid);
      var most, id := CloseTools(s, k - 1, valid), s.table.order[k - 1];
      if most.ok {
        CloseToolSays(most.state, id, valid);
        AlikeAgain(s.table, most.state.table, CloseTool(most.state, id, valid).state.table, id);
      }
    }
  }

  lemma ToolsAlike(t: ToolTable)
    ensures SameTools(t, t)
  {
  }

  lemma AlikeAgain(t: ToolTable, n: ToolTable, m: ToolTable, id: string)
    requires SameTools(t, n) && id in t.byId
    ensures id in n.byId && n.byId[id].arguments == t.byId[id].arguments
    ensures SameTools(n, m) ==> SameTools(t, m)
  {
  }

  lemma CloseToolSays(s: State, id: string, valid: JsonTest)
    requires id in s.table.byId
    ensures var o := CloseTool(s, id, valid);
            && (o.ok <==> valid(s.table.byId[id].arguments))
            && o.state.head == s.head && o.state.thought == s.thought && o.state.prose == s.prose
            && o.state.sink.next == s.sink.next && SameTools(s.table, o.state.table)
  {
  }

  /** The mapper and the log it has written when everything but the tools has been closed. */
  ghost predicate Ready(s: State, l: Log, frames: seq<Frame>, selected: string, given: string, limit: int) {
    && AgreeClosing(s, l, 0) && MarkersConsistent(l)
    && s.head.selectedModel == selected && Model(s.head) == LastModel(frames, selected)
    && s.head.responseId == ResponseId(frames, given) && s.head.stop == LastStop(frames)
    && s.head.usage == LastUsage(frames)
    && s.thought.text == Thinkings(frames) && s.thought.signature == LastSignature(frames)
    && s.prose.text == Texts(frames)
    && TableMeans(s.table, AllCalls(frames), limit) && Placed(s, Slots(frames))
  }

  /** What is rendered at an index is what its slot asks for. */
  lemma RenderedAt(s: State, l: Log, frames: seq<Frame>, selected: string, given: string, limit: int, p: nat)
    requires Ready(s, l, frames, selected, given, limit) && p < |Slots(frames)|
    ensures p < |l.items| && Render(l, l.items[p]) == ItemAt(frames, Slots(frames)[p])
  {
    hide Slots, Thinkings, Texts, LastSignature, AllCalls, NameOf, FragmentsFor, ActiveAfter, ClosedStored,
         ToolPositions;
    var slot := Slots(frames)[p];
    assert Stands(s, slot, p);
    match slot {
      case ThinkingSlot =>
      case TextSlot =>
      case ToolSlot(id, name) => assert ToolMeans(s.table, AllCalls(frames), id, limit);
    }
  }

  lemma RenderedSays(s: State, l: Log, frames: seq<Frame>, selected: string, given: string, limit: int)
    requires Ready(s, l, frames, selected, given, limit)
    ensures Rendered(l) == OutputOf(frames)
  {
    hide AgreeClosing, Render, Slots, ItemAt;
    assert |l.items| == |Slots(frames)| by { ReadySize(s, l, frames, selected, given, limit); }
    forall p | 0 <= p < |l.items| ensures Rendered(l)[p] == OutputOf(frames)[p] {
      RenderedAt(s, l, frames, selected, given, limit, p);
    }
  }

  lemma ReadySize(s: State, l: Log, frames: seq<Frame>, selected: string, given: string, limit: int)
    requires Ready(s, l, frames, selected, given, limit)
    ensures |l.items| == |Slots(frames)|
  {
    hide Slots, ToolPositions;
  }

  /** What finalizing adds to the log. */
  lemma FinalLog(s: State, l: Log, valid: JsonTest) returns (l1: Log)
    requires Agree(s, l) && Consistent(l) && Tracked(s.table) && Finalize(s, valid).ok
    ensures AgreeClosing(PrepareFinal(s).state, l1, 0) && Consistent(l1)
    ensures var n, r := |s.table.order|, FinalResponse(Finalize(s, valid).state);
            Feed(l, Bodies(Finalize(s, valid).events))
              == Some(l1.(argsClosed := n, itemsClosed := n, final := Some(r)))
    ensures Finalize(s, valid).state.head == PrepareFinal(s).state.head
  {
    hide AgreeClosing, Feed, PrepareFinal, CloseTools, Terminate, ToolPositions, Consistent, FinalResponse, ToolsAgree;
    NotTerminal(s, l);
    var prepared := PrepareFinal(s);
    PrepareFollows(s, l);
    FeedKeepsConsistent(l, Bodies(prepared.events));
    l1 := Feed(l, Bodies(prepared.events)).value;
    PrepareKeepsTable(s);
    ClosingTable(prepared.state, l1, 0);
    var tools := CloseTools(prepared.state, |s.table.order|, valid);
    CloseToolsFollow(prepared.state, l1, |s.table.order|, valid);
    var l2 := Feed(l1, Bodies(tools.events)).value;
    FeedAfter(l, prepared.events, tools.events);
    TerminateFollows(tools.state, l2);
    FeedAfter(l, prepared.events + tools.events, Terminate(tools.state).events);
    TerminateKeepsResponse(tools.state);
    CloseToolsSay(prepared.state, |s.table.order|, valid);
    TerminateKeepsHead(tools.state);
  }

  lemma TerminateKeepsHead(s: State)
    ensures Terminate(s).state.head == s.head
  {
  }

  lemma PreparedReady(s: State, l: Log, frames: seq<Frame>, selected: string, given: string, limit: int)
    requires Means(s, frames, selected, given, limit)
    requires AgreeClosing(PrepareFinal(s).state, l, 0) && Consistent(l)
    ensures Ready(PrepareFinal(s).state, l, frames, selected, given, limit)
  {
    hide AgreeClosing, PrepareFinal, TableMeans, Slots, MarkersConsistent, ThoughtEnded;
    PrepareSays(s);
    var n := PrepareFinal(s).state;
    forall p | 0 <= p < |Slots(frames)| ensures Stands(n, Slots(frames)[p], p) {
      assert Stands(s, Slots(frames)[p], p);
    }
  }

  /** The terminal response is the one the frames ask for. */
  lemma ResponseSays(s: State, t: State, l: Log, frames: seq<Frame>, selected: string, given: string, limit: int)
    requires Ready(s, l, frames, selected, given, limit) && t.head == s.head
    requires FinalResponse(t).output == Rendered(l)
    ensures FinalResponse(t) == ResponseFor(frames, selected, given)
  {
    hide Collect, Rendered, OutputOf, AgreeClosing, TableMeans, Placed, LastStop, LastUsage, LastModel, ResponseId,
         MarkersConsistent, Thinkings, LastSignature, Texts;
    RenderedSays(s, l, frames, selected, given, limit);
  }

  // ----- Main results -----

  lemma FinalizeSays(s: State, l: Log, frames: seq<Frame>, selected: string, given: string, limit: int, valid: JsonTest)
    requires Means(s, frames, selected, given, limit) && Agree(s, l) && Consistent(l) && Tracked(s.table)
    requires Finalize(s, valid).ok
    requires var n := Feed(l, Bodies(Finalize(s, valid).events));
             n.Some? && n.value.final.Some? ==> n.value.final.value.output == Rendered(n.value)
    ensures var n := Feed(l, Bodies(Finalize(s, valid).events));
            n.Some? && n.value.final == Some(ResponseFor(frames, selected, given))
              && n.value.text == Texts(frames) && n.value.thinking == Thinkings(frames)
  {
    hide Means, Agree, Consistent, Finalize, Feed, AgreeClosing, Rendered, ResponseFor, PrepareFinal;
    var l1 := FinalLog(s, l, valid);
    PreparedReady(s, l1, frames, selected, given, limit);
    var n := Feed(l, Bodies(Finalize(s, valid).events)).value;
    RendersAlike(l1, n);
    ResponseSays(PrepareFinal(s).state, Finalize(s, valid).state, l1, frames, selected, given, limit);
    ReadyTexts(PrepareFinal(s).state, l1, frames, selected, given, limit);
  }

  lemma RendersAlike(l: Log, n: Log)
    requires l.items == n.items && l.reasoning == n.reasoning && l.text == n.text
    ensures Rendered(l) == Rendered(n)
  {
  }

  lemma ReadyTexts(s: State, l: Log, frames: seq<Frame>, selected: string, given: string, limit: int)
    requires Ready(s, l, frames, selected, given, limit)
    ensures l.text == Texts(frames) && l.thinking == Thinkings(frames)
  {
    hide TableMeans, Placed, ToolsAgree, ClosedStored;
  }

  /** The last event carries the response, as complete or as incomplete as it is, and its usage. */
  predicate EndsWith(events: seq<Event>, r: Response) {
    && events != []
    && events[|events| - 1].body == (if r.status == "incomplete" then Incomplete(Some(r)) else Completed(Some(r)))
    && events[|events| - 1].usage == r.usage
  }

  lemma FinalizeEnds(s: State, valid: JsonTest)
    requires Tracked(s.table) && !s.terminal && Finalize(s, valid).ok
    ensures EndsWith(Finalize(s, valid).events, FinalResponse(Finalize(s, valid).state))
  {
    hide PrepareFinal, CloseTools, Collect, IncompleteReason;
    PrepareKeepsTable(s);
    var tools := CloseTools(PrepareFinal(s).state, |s.table.order|, valid);
    TerminateKeepsResponse(tools.state);
  }

  lemma EndsAfter(first: seq<Event>, second: seq<Event>, r: Response)
    requires EndsWith(second, r)
    ensures EndsWith(first + second, r)
  {
  }

  /**
   Every accepted run says what its frames say: the deltas are their texts and their thinking, and the run ends with
   the response they ask for: its identity, its ending, its output and its usage.
   */
  lemma RunMeans(selected: string, given: string, limit: int, frames: seq<Frame>, valid: JsonTest)
    requires limit >= 0 && Run(Initial(selected, given, limit), frames, valid).ok
    ensures var events := Run(Initial(selected, given, limit), frames, valid).events;
            && TextDeltas(Bodies(events)) == Texts(frames) && ReasoningDeltas(Bodies(events)) == Thinkings(frames)
            && EndsWith(events, ResponseFor(frames, selected, given))
  {
    hide PushAll, Feed, Finalize, Agree, Means, Consistent, ResponseFor, Framed, FinalResponse, EndsWith, Advance;
    var s := Initial(selected, given, limit);
    var pushed := PushAll(s, frames);
    var finished := Finalize(pushed.state, valid);
    var bodies := Bodies(pushed.events + finished.events);
    RunConforms(selected, given, limit, frames, valid);
    PushAllMeans(frames, selected, given, limit);
    InitialAgrees(selected, given, limit);
    PushAllFollows(s, EMPTY_LOG, frames);
    var l := Feed(EMPTY_LOG, Bodies(pushed.events)).value;
    NotTerminal(pushed.state, l);
    FeedConsistent(Bodies(pushed.events));
    FeedAfter(EMPTY_LOG, pushed.events, finished.events);
    PrefixFramed(bodies);
    FinalizeSays(pushed.state, l, frames, selected, given, limit, valid);
    FeedDelivers(bodies);
    FinalizeEnds(pushed.state, valid);
    EndsAfter(pushed.events, finished.events, FinalResponse(finished.state));
  }

  /** And a run is accepted exactly when its frames fit together. */
  lemma RunAcceptedExactly(selected: string, given: string, limit: int, frames: seq<Frame>, valid: JsonTest)
    requires limit >= 0
    ensures Run(Initial(selected, given, limit), frames, valid).ok <==> Acceptable(frames, limit, valid)
  {
    hide PushAll, FramesFit, Finalize, Agree, Means, Consistent, Feed;
    var s := Initial(selected, given, limit);
    var pushed := PushAll(s, frames);
    PushAllMeans(frames, selected, given, limit);
    if pushed.ok {
      InitialAgrees(selected, given, limit);
      PushAllFollows(s, EMPTY_LOG, frames);
      var l := Feed(EMPTY_LOG, Bodies(pushed.events)).value;
      NotTerminal(pushed.state, l);
      FeedConsistent(Bodies(pushed.events));
      FinalizedExactly(pushed.state, l, frames, selected, given, limit, valid);
    }
  }

  /** The tools to be closed are those that have a slot. */
  lemma FinalizedExactly(s: State, l: Log, frames: seq<Frame>, selected: string, given: string, limit: int,
        valid: JsonTest)
    requires Means(s, frames, selected, given, limit) && Agree(s, l) && Consistent(l) && Tracked(s.table)
    ensures Finalize(s, valid).ok <==> LastStop(frames) != StopError && ToolsValid(frames, valid)
  {
    hide PrepareFinal, CloseTools, AgreeClosing, Feed;
    PrepareSays(s);
    CloseToolsSay(PrepareFinal(s).state, |s.table.order|, valid);
    OrderIsSlots(s, l, frames, selected, given, limit, valid);
  }

  lemma OrderIsKeys(t: ToolTable, items: seq<Draft>, id: string)
    requires ToolsAgree(t, items)
    ensures id in t.order <==> id in t.byId
  {
    if id in t.byId {
      var p := t.byId[id].outputIndex;
      var k :| 0 <= k < |ToolPositions(items)| && ToolPositions(items)[k] == p;
      assert ToolDrafts(items)[k] == items[p];
      assert Ids(ToolDrafts(items))[k] == id;
    }
    hide ToolPositions;
  }

  /** A tool of the table has a slot of its own. */
  lemma ToolHasSlot(s: State, l: Log, frames: seq<Frame>, selected: string, given: string, limit: int, id: string)
    requires Means(s, frames, selected, given, limit) && Agree(s, l) && MarkersConsistent(l) && id in s.table.byId
    ensures var p := s.table.byId[id].outputIndex;
            p < |Slots(frames)| && Slots(frames)[p].ToolSlot? && Slots(frames)[p].id == id
  {
    hide Slots, ToolPositions, ToolDrafts, HeadMeans, SpeechMeans, TableMeans;
    var p := s.table.byId[id].outputIndex;
    assert Stands(s, Slots(frames)[p], p);
  }

  lemma OrderIsSlots(s: State, l: Log, frames: seq<Frame>, selected: string, given: string, limit: int,
        valid: JsonTest)
    requires Means(s, frames, selected, given, limit) && Agree(s, l) && MarkersConsistent(l) && Tracked(s.table)
    ensures (forall i :: 0 <= i < |s.table.order| ==> valid(s.table.byId[s.table.order[i]].arguments))
       <==> ToolsValid(frames, valid)
  {
    hide Slots, ToolPositions, ToolDrafts, HeadMeans, SpeechMeans, ToolsAgree, ThoughtAgrees, HeadAgrees;
    var slots, calls, t := Slots(frames), AllCalls(frames), s.table;
    hide AllCalls, NameOf, ArgumentsFor;
    if ToolsValid(frames, valid) {
      forall i | 0 <= i < |t.order| ensures valid(t.byId[t.order[i]].arguments) {
        ToolHasSlot(s, l, frames, selected, given, limit, t.order[i]);
        assert ToolMeans(t, calls, t.order[i], limit);
      }
    }
    if forall i :: 0 <= i < |t.order| ==> valid(t.byId[t.order[i]].arguments) {
      forall p | 0 <= p < |slots| && slots[p].ToolSlot? ensures valid(ArgumentsFor(calls, slots[p].id)) {
        assert Stands(s, slots[p], p);
        OrderIsKeys(t, l.items, slots[p].id);
        assert ToolMeans(t, calls, slots[p].id, limit);
      }
    }
  }

  // ----- For the translators -----

  /** An accepted run, by its first and its last event. */
  lemma RunAsked(selected: string, given: string, limit: int, frames: seq<Frame>, valid: JsonTest)
    requires limit >= 0 && Run(Initial(selected, given, limit), frames, valid).ok
    ensures var bodies := Bodies(Run(Initial(selected, given, limit), frames, valid).events);
            && Conforms(bodies) && bodies != [] && bodies[0].Created? && bodies[0].id == ResponseId(frames, given)
            && CarriesResponse(bodies[|bodies| - 1])
            && bodies[|bodies| - 1].response.value == ResponseFor(frames, selected, given)
  {
    var events := Run(Initial(selected, given, limit), frames, valid).events;
    RunConforms(selected, given, limit, frames, valid);
    RunMeans(selected, given, limit, frames, valid);
    PrefixFramed(Bodies(events));
    hide Run, Feed, ResponseFor, ReasoningSettled, TextDeltas, ReasoningDeltas, Texts, Thinkings, Rendered;
    LastAsked(events, ResponseFor(frames, selected, given));
    ResponseIdAsked(frames, selected, given);
  }

  lemma LastAsked(events: seq<Event>, r: Response)
    requires EndsWith(events, r) && Framed(Bodies(events))
    ensures var bodies := Bodies(events);
            bodies != [] && CarriesResponse(bodies[|bodies| - 1]) && bodies[|bodies| - 1].response.value == r
            && bodies[0].Created? && bodies[0].id == r.id
  {
  }

  lemma ResponseIdAsked(frames: seq<Frame>, selected: string, given: string)
    ensures ResponseFor(frames, selected, given).id == ResponseId(frames, given)
  {
  }
}
