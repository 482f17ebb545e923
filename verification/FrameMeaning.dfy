/**
 What a sequence of frames says, read off the frames alone: texts, identity,
 ending and usage, the tools and their arguments, and from these the response
 that the frames ask for.
 */
module FrameMeaning {
  import opened Basics
  import opened CanonicalEvents
  import opened MapperSteps

  // ----- Texts, identity, ending and usage -----

  function Texts(frames: seq<Frame>): string {
    if frames == [] then "" else Texts(frames[..|frames| - 1]) + frames[|frames| - 1].text
  }

  function Thinkings(frames: seq<Frame>): string {
    if frames == [] then "" else Thinkings(frames[..|frames| - 1]) + frames[|frames| - 1].thinking
  }

  /** The last signature. */
  function LastSignature(frames: seq<Frame>): string {
    if frames == [] then ""
    else if frames[|frames| - 1].signature != "" then frames[|frames| - 1].signature
    else LastSignature(frames[..|frames| - 1])
  }

  /** The last stop reason that is one. */
  function LastStop(frames: seq<Frame>): StopReason {
    if frames == [] then StopUnspecified
    else if frames[|frames| - 1].stop != StopUnspecified then frames[|frames| - 1].stop
    else LastStop(frames[..|frames| - 1])
  }

  /** The last model named, or else the one that was asked for. */
  function LastModel(frames: seq<Frame>, selected: string): string {
    if frames == [] then selected
    else
      var named := frames[|frames| - 1].actualModel;
      if named.Some? && !Blank(named.value) then named.value else LastModel(frames[..|frames| - 1], selected)
  }

  /** Only the first frame may name the response. */
  function ResponseId(frames: seq<Frame>, given: string): string {
    if frames != [] && frames[0].messageId != "" then frames[0].messageId
    else if given != "" then given
    else "devin-response"
  }

  function UsageOf(u: UsageStats): Usage {
    Usage(u.input, u.output, u.input + u.output, u.cacheRead, 0)
  }

  /** The usage of the last frame that carries one. */
  function LastUsage(frames: seq<Frame>): Usage {
    if frames == [] then Usage(0, 0, 0, 0, 0)
    else if frames[|frames| - 1].usage.Some? then UsageOf(frames[|frames| - 1].usage.value)
    else LastUsage(frames[..|frames| - 1])
  }

  // ----- Tools -----

  function AllCalls(frames: seq<Frame>): seq<Call> {
    if frames == [] then [] else AllCalls(frames[..|frames| - 1]) + frames[|frames| - 1].calls
  }

  /** The tool that the last call is about; one without an id continues the tool of the call before it. */
  function ActiveAfter(calls: seq<Call>): string {
    if calls == [] then ""
    else if calls[|calls| - 1].id != "" then calls[|calls| - 1].id
    else ActiveAfter(calls[..|calls| - 1])
  }

  /** The argument fragments addressed to one tool, in order. */
  function FragmentsFor(calls: seq<Call>, id: string): seq<string> {
    if calls == [] then []
    else FragmentsFor(calls[..|calls| - 1], id) + if ActiveAfter(calls) == id then [calls[|calls| - 1].arguments]
    else []
  }

  /** A fragment that repeats what there is replaces it; another one is put behind it. */
  function Accumulate(sofar: string, fragment: string): string {
    if sofar <= fragment then fragment else sofar + fragment
  }

  function Accumulated(fragments: seq<string>): string {
    if fragments == [] then ""
    else Accumulate(Accumulated(fragments[..|fragments| - 1]), fragments[|fragments| - 1])
  }

  function ArgumentsFor(calls: seq<Call>, id: string): string {
    Accumulated(FragmentsFor(calls, id))
  }

  /** The name a tool was first called by; "" when no call was about it. */
  function NameOf(calls: seq<Call>, id: string): string {
    if calls == [] then ""
    else
      var known := NameOf(calls[..|calls| - 1], id);
      if known != "" then known else if ActiveAfter(calls) == id then calls[|calls| - 1].name else ""
  }

  // ----- The response -----

  /** What stands at an output index. */
  datatype Slot = ThinkingSlot | TextSlot | ToolSlot(id: string, name: string)

  /** The tools that calls bring in, after earlier ones. */
  function NewTools(before: seq<Call>, calls: seq<Call>): seq<Slot> {
    if calls == [] then []
    else
      var most, id := calls[..|calls| - 1], ActiveAfter(before + calls);
      NewTools(before, most) + if NameOf(before + most, id) == "" then [ToolSlot(id, calls[|calls| - 1].name)] else []
  }

  /** Thinking, text and tools in the order in which they first come. */
  function Slots(frames: seq<Frame>): seq<Slot> {
    if frames == [] then []
    else
      var most, last := frames[..|frames| - 1], frames[|frames| - 1];
      Slots(most) + (if Thinkings(most) == "" && last.thinking != "" then [ThinkingSlot] else [])
        + (if Texts(most) == "" && last.text != "" then [TextSlot] else []) + NewTools(AllCalls(most), last.calls)
  }

  function ItemAt(frames: seq<Frame>, slot: Slot): Item {
    match slot
    case ThinkingSlot => Reasoning("reasoning-0", [Thinkings(frames)], LastSignature(frames))
    case TextSlot => Message("message-0", [Part(OutputText, Texts(frames), "")])
    case ToolSlot(id, name) => FunctionCall(id, id, name, ArgumentsFor(AllCalls(frames), id))
  }

  function OutputOf(frames: seq<Frame>): (items: seq<Item>) {
    var slots := Slots(frames);
    seq(|slots|, p requires 0 <= p < |slots| => ItemAt(frames, slots[p]))
  }

  /** Why the response is incomplete; "" when it is not. */
  function ReasonOf(frames: seq<Frame>): string {
    var stop := LastStop(frames);
    if stop == StopMaxTokens then "max_output_tokens"
    else if stop == StopIncomplete || stop == StopPartial then "incomplete"
    else if stop == StopContentFilter then "content_filter"
    else ""
  }

  /** The response that the frames ask for. */
  function ResponseFor(frames: seq<Frame>, selected: string, given: string): Response {
    Response(ResponseId(frames, given), LastModel(frames, selected),
             if ReasonOf(frames) != "" then "incomplete" else "completed", ReasonOf(frames), "", "",
             OutputOf(frames), LastUsage(frames))
  }

  // ----- Which frames are accepted -----

  /** Text has followed thinking, which ends the thinking. */
  predicate ThoughtEnded(frames: seq<Frame>) {
    exists k :: 0 <= k < |frames| && frames[k].text != "" && Thinkings(frames[..k + 1]) != ""
  }

  predicate UsageFits(f: Frame) {
    f.usage.Some? ==>
      f.usage.value.cacheRead <= MAX_INT64 && f.usage.value.input + f.usage.value.output <= MAX_INT64
  }

  /** The last call is about some tool, names it alike or for the first time, and leaves its arguments in the limit. */
  predicate LastCallFits(calls: seq<Call>, limit: int)
    requires calls != []
  {
    var id, last := ActiveAfter(calls), calls[|calls| - 1];
    var known := NameOf(calls[..|calls| - 1], id);
    && id != "" && |ArgumentsFor(calls, id)| <= limit
    && if known == "" then last.name != "" else last.name == "" || last.name == known
  }

  predicate CallsFit(calls: seq<Call>, limit: int) {
    forall k :: 0 < k <= |calls| ==> LastCallFits(calls[..k], limit)
  }

  /** Frames that can be pushed one after another. */
  predicate FramesFit(frames: seq<Frame>, limit: int) {
    && (forall k :: 0 <= k < |frames| && ThoughtEnded(frames[..k]) ==> frames[k].thinking == "" == frames[k].signature)
    && (forall k :: 0 <= k < |frames| ==> UsageFits(frames[k]))
    && CallsFit(AllCalls(frames), limit)
  }

  predicate ToolsValid(frames: seq<Frame>, valid: JsonTest) {
    var slots := Slots(frames);
    forall p :: 0 <= p < |slots| && slots[p].ToolSlot? ==> valid(ArgumentsFor(AllCalls(frames), slots[p].id))
  }

  /** And then end in a response. */
  predicate Acceptable(frames: seq<Frame>, limit: int, valid: JsonTest) {
    FramesFit(frames, limit) && LastStop(frames) != StopError && ToolsValid(frames, valid)
  }
}
