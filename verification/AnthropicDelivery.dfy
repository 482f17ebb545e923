/**
 Tool delivery: whatever text, thinking and parallel tool calls a conforming
 stream interleaves, the Anthropic client hears each tool once, in order, at
 increasing block indexes, with exactly its final arguments.
 */
module AnthropicDelivery {
  import opened Basics
  import opened CanonicalEvents
  import opened StreamProtocol
  import opened AnthropicSteps
  import MapperSteps
  import MapperConformance

  // ----- The client -----

  datatype ToolUse = ToolUse(index: int, id: string, name: string, json: string)

  datatype Heard = Heard(
    id: Option<string>, tools: seq<ToolUse>, text: string, thinking: string, signature: string,
    stopReason: Option<string>, stopSequence: string, usage: Option<MessageUsage>)

  const NOTHING := Heard(None, [], "", "", "", None, "", None)

  /** The tool that input at a block index belongs to: the latest one started there, or -1. */
  function ToolAt(tools: seq<ToolUse>, index: int): (k: int)
    ensures -1 <= k < |tools|
  {
    if tools == [] then -1
    else if tools[|tools| - 1].index == index then |tools| - 1
    else ToolAt(tools[..|tools| - 1], index)
  }

  /**
   What the client knows after one more frame; None when tool input belongs to no tool or the message starts or ends
   twice.
   */
  function Hear(h: Heard, f: Frame): Option<Heard> {
    match f
    case BlockStart(index, ToolBlock(id, name)) => Some(h.(tools := h.tools + [ToolUse(index, id, name, "")]))
    case JsonPiece(index, json) =>
      var k := ToolAt(h.tools, index);
      if k < 0 then None else Some(h.(tools := h.tools[k := h.tools[k].(json := h.tools[k].json + json)]))
    case TextPiece(_, text) => Some(h.(text := h.text + text))
    case ThinkingPiece(_, text) => Some(h.(thinking := h.thinking + text))
    case SignaturePiece(_, signature) => Some(h.(signature := h.signature + signature))
    case MessageStart(id, _) => if h.id.Some? then None else Some(h.(id := Some(id)))
    case MessageDelta(reason, sequence, usage) =>
      if h.stopReason.Some? then None
      else Some(h.(stopReason := Some(reason), stopSequence := sequence, usage := Some(usage)))
    case _ => Some(h)
  }

  function HearAll(h: Heard, frames: seq<Frame>): Option<Heard> {
    if frames == [] then Some(h)
    else
      var most := HearAll(h, frames[..|frames| - 1]);
      if most.None? then None else Hear(most.value, frames[|frames| - 1])
  }

  datatype Session = Session(state: AnthropicState, heard: Heard)

  ghost function Converse(model: string, events: seq<Body>, names: Names): Option<Session> {
    if events == [] then Some(Session(INITIAL, NOTHING))
    else
      var most := Converse(model, events[..|events| - 1], names);
      if most.None? then None
      else Exchange(most.value, AnthropicStream(most.value.state, events[|events| - 1], model, names))
  }

  function Exchange(x: Session, sent: Sent): Option<Session> {
    var h := HearAll(x.heard, sent.frames);
    if h.None? then None else Some(Session(sent.state, h.value))
  }

  lemma HearNone(h: Heard)
    ensures HearAll(h, []) == Some(h)
  {
  }

  lemma HearOne(h: Heard, f: Frame)
    ensures HearAll(h, [f]) == Hear(h, f)
  {
    assert [f][..0] == [];
    assert HearAll(h, [f][..0]) == Some(h);
  }

  lemma {:induction false} HearAppend(h: Heard, xs: seq<Frame>, ys: seq<Frame>)
    requires HearAll(h, xs).Some?
    ensures HearAll(h, xs + ys) == HearAll(HearAll(h, xs).value, ys)
  {
    hide Hear;
    if ys == [] {
      assert xs + ys == xs;
    } else {
      HearAppend(h, xs, ys[..|ys| - 1]);
      assert (xs + ys)[..|xs + ys| - 1] == xs + ys[..|ys| - 1];
    }
  }

  // ----- The invariant, on the tools alone -----

  predicate AreTools(ps: seq<nat>, tools: seq<Draft>) {
    && |ps| == |tools| && (forall k :: 0 <= k < |tools| ==> tools[k].ToolDraft?)
    && forall i, j :: 0 <= i < j < |ps| ==> ps[i] < ps[j]
  }

  /** The first m tools have been started, in order and each complete so far. */
  ghost predicate StartedHeard(f: Functions, cursor: Cursor, heard: seq<ToolUse>, ps: seq<nat>, tools: seq<Draft>,
        m: nat, names: Names)
    requires AreTools(ps, tools)
  {
    && m <= |ps| && |heard| == m
    && (forall k :: 0 <= k < m ==> heard[k] == UseOf(tools[k], heard[k].index, names))
    && (forall i, j :: 0 <= i < j < m ==> heard[i].index < heard[j].index)
    && (forall k :: 0 <= k < m ==> heard[k].index <= cursor.index && (!f.active ==> heard[k].index < cursor.index))
    && (forall k :: 0 <= k < m ==> ps[k] in f.blocks && f.blocks[ps[k]] == heard[k].index)
  }

  function UseOf(d: Draft, index: int, names: Names): ToolUse
    requires d.ToolDraft?
  {
    ToolUse(index, d.id, ClientName(names, d.name), d.arguments)
  }

  /** The other tools wait, with their arguments so far. */
  ghost predicate RestPending(f: Functions, ps: seq<nat>, tools: seq<Draft>, m: nat)
    requires AreTools(ps, tools)
  {
    && (forall k :: m <= k < |ps| ==>
         ps[k] in f.pending && f.pending[ps[k]] == FunctionCall(tools[k].id, tools[k].id, tools[k].name, ""))
    && (forall p :: p in f.pending ==> p in ps)
    && (forall k :: 0 <= k < |ps| ==> PendingArgumentsOf(f, ps[k]) == if k < m then "" else tools[k].arguments)
    && (forall k :: 0 <= k < m && k < |ps| ==> ps[k] !in f.pending)
    && (forall p :: p !in ps ==> PendingArgumentsOf(f, p) == "")
  }

  /** Arguments are marked as seen wherever a started tool has some, and only the first c tools are marked as done. */
  ghost predicate Marked(f: Functions, ps: seq<nat>, tools: seq<Draft>, m: nat, c: nat)
    requires AreTools(ps, tools)
  {
    && (forall k :: 0 <= k < m && k < |ps| && tools[k].arguments != "" ==> ps[k] in f.argumentsSeen)
    && (forall k :: c <= k < |ps| ==> ps[k] !in f.pendingDone)
    && (forall p :: p in f.pendingDone ==> p in ps)
    && (f.active ==> 0 < m <= |ps| && f.activeOutput == ps[m - 1])
  }

  /** m tools started, c of them done, the last one running when the flag says so. */
  ghost predicate Serves(x: Session, ps: seq<nat>, tools: seq<Draft>, m: nat, c: nat, names: Names) {
    && AreTools(ps, tools) && m <= |ps| && c <= m
    && StartedHeard(x.state.functions, x.state.cursor, x.heard.tools, ps, tools, m, names)
    && RestPending(x.state.functions, ps, tools, m)
    && Marked(x.state.functions, ps, tools, m, c)
    && (x.state.hasClientTool <==> m > 0)
    && (x.state.functions.active ==> x.state.cursor.kind != NoBlock)
  }

  lemma EndServes(x: Session, ps: seq<nat>, tools: seq<Draft>, m: nat, c: nat, names: Names)
    requires Serves(x, ps, tools, m, c, names) && x.state.functions.active
    ensures var y := Session(EndFunction(x.state).state, x.heard);
            Exchange(x, EndFunction(x.state)) == Some(y) && Serves(y, ps, tools, m, c, names)
              && !y.state.functions.active
            && y.state.textSeen == x.state.textSeen
  {
    HearOne(x.heard, BlockStop(x.state.cursor.index));
    hide HearAll;
    assert EndFunction(x.state).state
        == x.state.(cursor := Cursor(x.state.cursor.index + 1, NoBlock),
                    functions := x.state.functions.(active := false));
    hide EndFunction;
  }

  // ----- What each sub-step does to the tools -----

  lemma PumpIdle(x: Session, ps: seq<nat>, tools: seq<Draft>, m: nat, c: nat, names: Names)
    requires Serves(x, ps, tools, m, c, names) && (x.state.functions.active || m == |ps|)
    ensures Pump(x.state, names) == Sent(x.state, [])
  {
    hide StartedHeard, Marked;
    if m == |ps| {
      forall p ensures p !in x.state.functions.pending {
        if p in ps {
          var k :| 0 <= k < |ps| && ps[k] == p;
        }
      }
      assert x.state.functions.pending.Keys == {};
    }
  }

  lemma NextIsLeast(f: Functions, ps: seq<nat>, tools: seq<Draft>, m: nat)
    requires AreTools(ps, tools) && RestPending(f, ps, tools, m) && m < |ps|
    ensures ps[m] in f.pending && |f.pending.Keys| > 0 && Least(f.pending.Keys) == ps[m]
  {
    assert ps[m] in f.pending.Keys;
    var p := Least(f.pending.Keys);
    var k :| 0 <= k < |ps| && ps[k] == p;
    hide Least;
  }

  lemma PumpOpens(x: Session, ps: seq<nat>, tools: seq<Draft>, m: nat, c: nat, names: Names)
    requires Serves(x, ps, tools, m, c, names) && !x.state.functions.active && m < |ps|
    ensures ps[m] in x.state.functions.pending && ps[m] !in x.state.functions.pendingDone
    ensures Pump(x.state, names) == OpenFunction(x.state, ps[m], names)
  {
    NextIsLeast(x.state.functions, ps, tools, m);
    OpenKeepsDone(x.state, ps[m], names);
    hide OpenFunction, EndFunction, Least, StartedHeard, RestPending;
  }

  lemma OpenKeepsDone(s: AnthropicState, index: int, names: Names)
    requires index in s.functions.pending
    ensures OpenFunction(s, index, names).state.functions.pendingDone == s.functions.pendingDone
  {
  }

  /** The functions once a waiting tool has been opened at a block index. */
  function OpenedFunctions(f: Functions, p: int, at: int): Functions {
    var arguments := PendingArgumentsOf(f, p);
    f.(pending := f.pending - {p}, active := true, activeOutput := p, blocks := f.blocks[p := at],
       pendingArguments := if arguments == "" then f.pendingArguments else f.pendingArguments - {p},
       argumentsSeen := if arguments == "" then f.argumentsSeen else f.argumentsSeen + {p})
  }

  function ToolFrames(index: int, id: string, name: string, arguments: string): seq<Frame> {
    [BlockStart(index, ToolBlock(id, name))] + if arguments == "" then [] else [JsonPiece(index, arguments)]
  }

  lemma OpenSays(s: AnthropicState, p: nat, names: Names)
    requires p in s.functions.pending
    ensures var item := s.functions.pending[p];
            OpenFunction(s, p, names) == Sent(
              s.(hasClientTool := true, cursor := Cursor(s.cursor.index, ToolType),
                 functions := OpenedFunctions(s.functions, p, s.cursor.index)),
              ToolFrames(s.cursor.index, CallIdOf(item), ClientName(names, item.name),
                         PendingArgumentsOf(s.functions, p)))
  {
  }

  lemma HearTool(h: Heard, index: int, id: string, name: string, arguments: string)
    ensures HearAll(h, ToolFrames(index, id, name, arguments))
         == Some(h.(tools := h.tools + [ToolUse(index, id, name, arguments)]))
  {
    var start, piece := BlockStart(index, ToolBlock(id, name)), JsonPiece(index, arguments);
    HearOne(h, start);
    if arguments != "" {
      HearAppend(h, [start], [piece]);
      var h1 := h.(tools := h.tools + [ToolUse(index, id, name, "")]);
      HearOne(h1, piece);
      assert ToolAt(h1.tools, index) == |h.tools|;
      assert h1.tools[|h.tools|].json + arguments == arguments;
      assert h1.tools[|h.tools| := ToolUse(index, id, name, arguments)]
          == h.tools + [ToolUse(index, id, name, arguments)];
      hide HearAll, ToolAt;
    } else {
      assert [start] + [] == [start];
    }
  }

  lemma OpenedStarted(f: Functions, cursor: Cursor, heard: seq<ToolUse>, ps: seq<nat>, tools: seq<Draft>, m: nat,
        names: Names)
    requires AreTools(ps, tools) && m < |ps| && StartedHeard(f, cursor, heard, ps, tools, m, names) && !f.active
    ensures StartedHeard(OpenedFunctions(f, ps[m], cursor.index), Cursor(cursor.index, ToolType),
                         heard + [UseOf(tools[m], cursor.index, names)],
                         ps, tools, m + 1, names)
  {
    hide ClientName;
  }

  lemma OpenedRest(f: Functions, ps: seq<nat>, tools: seq<Draft>, m: nat, c: nat, at: int)
    requires AreTools(ps, tools) && m < |ps| && c <= m && RestPending(f, ps, tools, m) && Marked(f, ps, tools, m, c)
    ensures RestPending(OpenedFunctions(f, ps[m], at), ps, tools, m + 1)
    ensures Marked(OpenedFunctions(f, ps[m], at), ps, tools, m + 1, c)
  {
    OpenedWaits(f, ps, tools, m, at);
    OpenedMarks(f, ps, tools, m, c, at);
    hide RestPending, Marked, AreTools, OpenedFunctions;
  }

  lemma OpenedWaits(f: Functions, ps: seq<nat>, tools: seq<Draft>, m: nat, at: int)
    requires AreTools(ps, tools) && m < |ps| && RestPending(f, ps, tools, m)
    ensures RestPending(OpenedFunctions(f, ps[m], at), ps, tools, m + 1)
  {
    forall p ensures PendingArgumentsOf(OpenedFunctions(f, ps[m], at), p)
                  == if p == ps[m] then "" else PendingArgumentsOf(f, p) {
      OpenedArguments(f, ps[m], at, p);
    }
    var pending := OpenedFunctions(f, ps[m], at).pending;
    assert forall p :: p in pending <==> p in f.pending && p != ps[m];
    assert forall k :: 0 <= k < |ps| && k != m ==> ps[k] != ps[m];
    hide PendingArgumentsOf;
  }

  lemma OpenedArguments(f: Functions, started: int, at: int, p: int)
    ensures PendingArgumentsOf(OpenedFunctions(f, started, at), p)
         == if p == started then "" else PendingArgumentsOf(f, p)
  {
  }

  lemma OpenedMarks(f: Functions, ps: seq<nat>, tools: seq<Draft>, m: nat, c: nat, at: int)
    requires AreTools(ps, tools) && m < |ps| && c <= m && RestPending(f, ps, tools, m) && Marked(f, ps, tools, m, c)
    ensures Marked(OpenedFunctions(f, ps[m], at), ps, tools, m + 1, c)
  {
    assert PendingArgumentsOf(f, ps[m]) == tools[m].arguments;
    hide RestPending, PendingArgumentsOf;
  }

  /** Opening the next waiting tool starts it, with everything buffered for it. */
  lemma OpenServes(x: Session, ps: seq<nat>, tools: seq<Draft>, m: nat, c: nat, names: Names)
    requires Serves(x, ps, tools, m, c, names) && !x.state.functions.active && m < |ps| && tools[m].id != ""
    ensures var open := Pump(x.state, names);
            var y := Session(open.state,
                             x.heard.(tools := x.heard.tools + [UseOf(tools[m], x.state.cursor.index, names)]));
            && Exchange(x, open) == Some(y) && Serves(y, ps, tools, m + 1, c, names) && y.state.functions.active
            && y.state.textSeen == x.state.textSeen
  {
    PumpOpens(x, ps, tools, m, c, names);
    OpenSays(x.state, ps[m], names);
    HearTool(x.heard, x.state.cursor.index, tools[m].id, ClientName(names, tools[m].name), tools[m].arguments);
    OpenedStarted(x.state.functions, x.state.cursor, x.heard.tools, ps, tools, m, names);
    OpenedRest(x.state.functions, ps, tools, m, c, x.state.cursor.index);
    assert x.state.functions.pending[ps[m]] == FunctionCall(tools[m].id, tools[m].id, tools[m].name, "");
    assert PendingArgumentsOf(x.state.functions, ps[m]) == tools[m].arguments;
    hide OpenFunction, HearAll, ClientName, Pump, StartedHeard, RestPending, Marked, ToolFrames;
  }

  lemma AddServes(x: Session, ps: seq<nat>, tools: seq<Draft>, m: nat, c: nat, p: nat, d: Draft, names: Names)
    requires Serves(x, ps, tools, m, c, names) && d.ToolDraft? && d.arguments == ""
    requires forall k :: 0 <= k < |ps| ==> ps[k] < p
    ensures Serves(x.(state := AddPending(x.state, p, FunctionCall(d.id, d.id, d.name, ""))), ps + [p], tools + [d], m,
                   c, names)
  {
    hide ClientName;
    var f := x.state.functions;
    var g := AddPending(x.state, p, FunctionCall(d.id, d.id, d.name, "")).functions;
    assert p !in ps;
    AddRest(f, g, ps, tools, m, p, d);
    AddMarks(f, g, x.state.cursor, x.heard.tools, ps, tools, m, c, p, d, names);
    hide RestPending, StartedHeard, Marked;
  }

  lemma AddMarks(f: Functions, g: Functions, cursor: Cursor, heard: seq<ToolUse>, ps: seq<nat>, tools: seq<Draft>,
        m: nat, c: nat, p: nat, d: Draft, names: Names)
    requires AreTools(ps, tools) && AreTools(ps + [p], tools + [d]) && p !in ps && m <= |ps| && c <= |ps|
    requires StartedHeard(f, cursor, heard, ps, tools, m, names) && Marked(f, ps, tools, m, c)
    requires g.active == f.active && g.activeOutput == f.activeOutput && g.blocks == f.blocks
    requires g.argumentsSeen == f.argumentsSeen && g.pendingDone == f.pendingDone
    ensures StartedHeard(g, cursor, heard, ps + [p], tools + [d], m, names) && Marked(g, ps + [p], tools + [d], m, c)
  {
    hide ClientName;
  }

  lemma AddRest(f: Functions, g: Functions, ps: seq<nat>, tools: seq<Draft>, m: nat, p: nat, d: Draft)
    requires AreTools(ps, tools) && RestPending(f, ps, tools, m) && m <= |ps| && AreTools(ps + [p], tools + [d])
    requires p !in ps
    requires d.ToolDraft? && d.arguments == ""
    requires g.pendingArguments == f.pendingArguments
    requires g.pending == f.pending[p := FunctionCall(d.id, d.id, d.name, "")]
    ensures RestPending(g, ps + [p], tools + [d], m)
  {
    var qs, drafts := ps + [p], tools + [d];
    assert forall q :: q in qs <==> q in ps || q == p;
    assert forall q: int {:trigger PendingArgumentsOf(g, q)} :: PendingArgumentsOf(g, q) == PendingArgumentsOf(f, q);
    assert PendingArgumentsOf(f, p) == "";
    hide PendingArgumentsOf;
    assert forall k :: 0 <= k < |ps| ==> qs[k] == ps[k] && drafts[k] == tools[k];
  }

  /** Two sessions whose clients differ at most in the tools they have heard. */
  predicate SameSpeech(x: Session, y: Session) {
    x.heard.(tools := []) == y.heard.(tools := []) && x.state.textSeen == y.state.textSeen
  }

  lemma ToolAtFinds(heard: seq<ToolUse>, k: nat)
    requires k < |heard| && forall i, j :: 0 <= i < j < |heard| ==> heard[i].index < heard[j].index
    ensures ToolAt(heard, heard[k].index) == k
  {
    if k < |heard| - 1 {
      ToolAtFinds(heard[..|heard| - 1], k);
    }
  }

  function Extended(tools: seq<Draft>, k: nat, delta: string): seq<Draft>
    requires k < |tools| && tools[k].ToolDraft?
  {
    tools[k := tools[k].(arguments := tools[k].arguments + delta)]
  }

  /** The client adds a piece to the tool whose block it names. */
  lemma PieceHeard(h: Heard, k: nat, delta: string)
    requires k < |h.tools| && forall i, j :: 0 <= i < j < |h.tools| ==> h.tools[i].index < h.tools[j].index
    ensures var u := h.tools[k];
            HearAll(h, [JsonPiece(u.index, delta)]) == Some(h.(tools := h.tools[k := u.(json := u.json + delta)]))
  {
    ToolAtFinds(h.tools, k);
    HearOne(h, JsonPiece(h.tools[k].index, delta));
    hide HearAll, ToolAt;
  }

  /** Arguments of the running tool are passed on. */
  lemma RunningExtends(x: Session, ps: seq<nat>, tools: seq<Draft>, m: nat, c: nat, delta: string, names: Names)
    requires Serves(x, ps, tools, m, c, names) && x.state.functions.active && m > 0
    ensures var sent := ExtendArguments(x.state, ps[m - 1], delta);
            var u := x.heard.tools[m - 1];
            var y := Session(sent.state, x.heard.(tools := x.heard.tools[m - 1 := u.(json := u.json + delta)]));
            Exchange(x, sent) == Some(y) && Serves(y, ps, Extended(tools, m - 1, delta), m, c, names)
              && y.state.functions.active && SameSpeech(x, y)
  {
    hide HearAll, RestPending;
    PieceHeard(x.heard, m - 1, delta);
    var f, g := x.state.functions, MarkSeen(x.state, ps[m - 1]).functions;
    ExtendedStarted(f, g, x.state.cursor, x.heard.tools, ps, tools, m, m - 1, delta, names);
    ExtendedRest(f, g, ps, tools, m, m - 1, delta);
    assert f.blocks[ps[m - 1]] == x.heard.tools[m - 1].index;
    hide StartedHeard;
  }

  lemma ExtendedStarted(f: Functions, g: Functions, cursor: Cursor, heard: seq<ToolUse>, ps: seq<nat>,
        tools: seq<Draft>, m: nat, k: nat, delta: string, names: Names)
    requires AreTools(ps, tools) && StartedHeard(f, cursor, heard, ps, tools, m, names) && k < |ps|
    requires f.blocks == g.blocks && f.active == g.active
    ensures StartedHeard(g, cursor, if k < m then heard[k := heard[k].(json := heard[k].json + delta)] else heard, ps,
                         Extended(tools, k, delta), m, names)
  {
    hide ClientName;
  }

  lemma ExtendedRest(f: Functions, g: Functions, ps: seq<nat>, tools: seq<Draft>, m: nat, k: nat, delta: string)
    requires AreTools(ps, tools) && k < |ps| && RestPending(f, ps, tools, m) && g.pending == f.pending
    requires g.pendingArguments == if k < m then f.pendingArguments
             else f.pendingArguments[ps[k] := tools[k].arguments + delta]
    ensures RestPending(g, ps, Extended(tools, k, delta), m)
  {
    assert forall p: int {:trigger PendingArgumentsOf(g, p)} ::
         p != ps[k] || k < m ==> PendingArgumentsOf(g, p) == PendingArgumentsOf(f, p);
    assert k >= m ==> PendingArgumentsOf(g, ps[k]) == tools[k].arguments + delta;
    hide PendingArgumentsOf;
  }

  /** Nothing is sent of what a tool receives before its turn. */
  lemma WaitingSent(s: AnthropicState, ps: seq<nat>, tools: seq<Draft>, m: nat, c: nat, k: nat, delta: string)
    requires AreTools(ps, tools) && RestPending(s.functions, ps, tools, m) && Marked(s.functions, ps, tools, m, c)
    requires m <= k < |ps|
    ensures var f := s.functions;
            var extended := f.pendingArguments[ps[k] := tools[k].arguments + delta];
            ExtendArguments(s, ps[k], delta) == Sent(s.(functions := f.(pendingArguments := extended)), [])
  {
    hide PendingArgumentsOf;
  }

  lemma MarkedExtended(f: Functions, g: Functions, ps: seq<nat>, tools: seq<Draft>, m: nat, c: nat, k: nat,
        delta: string)
    requires AreTools(ps, tools) && Marked(f, ps, tools, m, c) && m <= k < |ps|
    requires f.(pendingArguments := map[]) == g.(pendingArguments := map[])
    ensures AreTools(ps, Extended(tools, k, delta)) && Marked(g, ps, Extended(tools, k, delta), m, c)
  {
  }

  /** Arguments of a waiting tool are kept for it. */
  lemma WaitingExtends(x: Session, ps: seq<nat>, tools: seq<Draft>, m: nat, c: nat, k: nat, delta: string, names: Names)
    requires Serves(x, ps, tools, m, c, names) && m <= k < |ps|
    ensures var sent := ExtendArguments(x.state, ps[k], delta);
            var y := Session(sent.state, x.heard);
            && Exchange(x, sent) == Some(y) && Serves(y, ps, Extended(tools, k, delta), m, c, names)
            && y.state.functions.active == x.state.functions.active && SameSpeech(x, y)
  {
    hide HearAll, StartedHeard, RestPending, Marked;
    var f := x.state.functions;
    var g := f.(pendingArguments := f.pendingArguments[ps[k] := tools[k].arguments + delta]);
    WaitingSent(x.state, ps, tools, m, c, k, delta);
    ExtendedStarted(f, g, x.state.cursor, x.heard.tools, ps, tools, m, k, delta, names);
    ExtendedRest(f, g, ps, tools, m, k, delta);
    MarkedExtended(f, g, ps, tools, m, c, k, delta);
    HearNone(x.heard);
  }

  /** Speech may move the cursor but not the tools. */
  lemma CursorServes(x: Session, y: Session, ps: seq<nat>, tools: seq<Draft>, m: nat, c: nat, names: Names)
    requires Serves(x, ps, tools, m, c, names)
    requires y.state.functions == x.state.functions && y.state.hasClientTool == x.state.hasClientTool
    requires y.heard.tools == x.heard.tools
    requires y.state.cursor == x.state.cursor
             || (y.state.cursor.index >= x.state.cursor.index
                 && (y.state.cursor.kind == NoBlock ==> !x.state.functions.active))
    ensures Serves(y, ps, tools, m, c, names)
  {
    hide ClientName, RestPending, Marked;
  }

  /** Closing the running tool ends it and opens the next one, if there is one. */
  lemma CloseServes(x: Session, ps: seq<nat>, tools: seq<Draft>, c: nat, arguments: string, names: Names)
    requires Serves(x, ps, tools, c + 1, c, names) && x.state.functions.active && tools[c].arguments != ""
    requires c + 1 < |ps| ==> tools[c + 1].id != ""
    ensures var y := Exchange(x, FunctionDone(OfferArguments(x.state, ps[c], arguments), ps[c], names));
            && y.Some? && Serves(y.value, ps, tools, Min(c + 2, |ps|), c + 1, names)
            && (y.value.state.functions.active <==> c + 1 < |ps|) && SameSpeech(x, y.value)
  {
    var s := x.state;
    DoneIsEnd(x, ps, tools, c, arguments, names);
    hide Serves, FunctionDone, OfferArguments, EndFunction, Pump, HearAll;
    EndServes(x, ps, tools, c + 1, c, names);
    var ended := EndFunction(s);
    var y := Session(ended.state, x.heard);
    DoneMore(y, ps, tools, c + 1, c, names);
    ServesSays(y, ps, tools, c + 1, c + 1, names);
    if c + 1 < |ps| {
      OpenServes(y, ps, tools, c + 1, c + 1, names);
    } else {
      PumpIdle(y, ps, tools, c + 1, c + 1, names);
      HearNone(y.heard);
    }
    HearAppend(x.heard, ended.frames, Pump(ended.state, names).frames);
  }

  lemma ServesSays(x: Session, ps: seq<nat>, tools: seq<Draft>, m: nat, c: nat, names: Names)
    requires Serves(x, ps, tools, m, c, names)
    ensures AreTools(ps, tools) && m <= |ps|
  {
  }

  lemma DoneMore(x: Session, ps: seq<nat>, tools: seq<Draft>, m: nat, c: nat, names: Names)
    requires Serves(x, ps, tools, m, c, names) && c < m
    ensures Serves(x, ps, tools, m, c + 1, names)
  {
    hide StartedHeard, RestPending;
  }

  /** A running tool that has its arguments is simply ended. */
  lemma DoneIsEnd(x: Session, ps: seq<nat>, tools: seq<Draft>, c: nat, arguments: string, names: Names)
    requires Serves(x, ps, tools, c + 1, c, names) && x.state.functions.active && tools[c].arguments != ""
    ensures FunctionDone(OfferArguments(x.state, ps[c], arguments), ps[c], names)
         == Following(EndFunction(x.state).frames, Pump(EndFunction(x.state).state, names))
  {
    RunningMarks(x, ps, tools, c, names);
    hide Serves;
    RunningEnds(x.state, ps[c], arguments, names);
  }

  lemma RunningMarks(x: Session, ps: seq<nat>, tools: seq<Draft>, c: nat, names: Names)
    requires Serves(x, ps, tools, c + 1, c, names) && x.state.functions.active && tools[c].arguments != ""
    ensures var f := x.state.functions;
            ps[c] in f.argumentsSeen && PendingArgumentsOf(f, ps[c]) == "" && ps[c] !in f.pendingDone
              && f.activeOutput == ps[c]
  {
    hide StartedHeard;
  }

  lemma RunningEnds(s: AnthropicState, p: int, arguments: string, names: Names)
    requires var f := s.functions;
             p in f.argumentsSeen && PendingArgumentsOf(f, p) == "" && p !in f.pendingDone && f.active
               && f.activeOutput == p
    ensures FunctionDone(OfferArguments(s, p, arguments), p, names)
         == Following(EndFunction(s).frames, Pump(EndFunction(s).state, names))
  {
    var f := s.functions;
    var done := MarkDone(s, p);
    assert ForgetDone(done, p) == s by {
      assert f.pendingDone + {p} - {p} == f.pendingDone;
    }
    assert Flush(done, p) == Sent(done, []);
    assert [] + EndFunction(s).frames == EndFunction(s).frames;
    hide EndFunction, Pump, Flush;
  }

  /** The item of a tool that is already over only leaves a mark. */
  lemma ItemIsMark(s: AnthropicState, p: int, item: Item, names: Names)
    requires item.FunctionCall? && p in s.functions.blocks && p in s.functions.argumentsSeen
    requires s.functions.active ==> s.functions.activeOutput != p
    ensures ItemFinished(s, p, item, names)
         == Following([], Pump(MarkDone(s, p), names))
  {
    hide Pump;
  }

  lemma MarkServes(x: Session, ps: seq<nat>, tools: seq<Draft>, m: nat, c: nat, k: nat, names: Names)
    requires Serves(x, ps, tools, m, c, names) && k < c
    ensures Serves(x.(state := MarkDone(x.state, ps[k])), ps, tools, m, c, names)
  {
    hide StartedHeard, RestPending, PendingArgumentsOf, ClientName;
    var f := x.state.functions;
    var g := f.(pendingDone := f.pendingDone + {ps[k]});
    RestKept(f, g, ps, tools, m);
    StartedKept(f, g, x.state.cursor, x.heard.tools, ps, tools, m, names);
  }

  lemma RestKept(f: Functions, g: Functions, ps: seq<nat>, tools: seq<Draft>, m: nat)
    requires AreTools(ps, tools) && RestPending(f, ps, tools, m) && g.pending == f.pending
    requires g.pendingArguments == f.pendingArguments
    ensures RestPending(g, ps, tools, m)
  {
    assert forall p: int {:trigger PendingArgumentsOf(g, p)} :: PendingArgumentsOf(g, p) == PendingArgumentsOf(f, p);
    hide PendingArgumentsOf;
  }

  lemma StartedKept(f: Functions, g: Functions, cursor: Cursor, heard: seq<ToolUse>, ps: seq<nat>, tools: seq<Draft>,
        m: nat, names: Names)
    requires AreTools(ps, tools) && StartedHeard(f, cursor, heard, ps, tools, m, names) && g.blocks == f.blocks
    requires g.active == f.active
    ensures StartedHeard(g, cursor, heard, ps, tools, m, names)
  {
    hide UseOf;
  }

  lemma StartedMarks(x: Session, ps: seq<nat>, tools: seq<Draft>, m: nat, c: nat, k: nat, names: Names)
    requires Serves(x, ps, tools, m, c, names) && k < m && tools[k].arguments != ""
    ensures ps[k] in x.state.functions.blocks && ps[k] in x.state.functions.argumentsSeen
    ensures x.state.functions.active && k < m - 1 ==> x.state.functions.activeOutput != ps[k]
  {
    hide RestPending;
  }

  lemma ItemServes(x: Session, ps: seq<nat>, tools: seq<Draft>, m: nat, c: nat, k: nat, item: Item, names: Names)
    requires Serves(x, ps, tools, m, c, names) && k < c && (x.state.functions.active || m == |ps|) && item.FunctionCall?
    requires x.state.functions.active ==> k < m - 1
    requires tools[k].arguments != ""
    ensures var sent := ItemFinished(x.state, ps[k], item, names);
            var y := Session(sent.state, x.heard);
            && Exchange(x, sent) == Some(y) && Serves(y, ps, tools, m, c, names) && SameSpeech(x, y)
            && y.state.functions.active == x.state.functions.active
  {
    StartedMarks(x, ps, tools, m, c, k, names);
    ItemIsMark(x.state, ps[k], item, names);
    MarkServes(x, ps, tools, m, c, k, names);
    hide Serves, ItemFinished, HearAll, Pump;
    PumpIdle(x.(state := MarkDone(x.state, ps[k])), ps, tools, m, c, names);
    HearNone(x.heard);
  }

  // ----- The invariant, against the log -----

  /** How many tools have been started: the closed ones and, until all are closed, the next. */
  function StartedTools(n: nat, closed: nat): nat {
    if closed < n then closed + 1 else n
  }

  ghost predicate InStep(x: Session, l: Log, names: Names) {
    var ps, tools := ToolPositions(l.items), ToolDrafts(l.items);
    && l.argsClosed <= |ps|
    && Serves(x, ps, tools, StartedTools(|ps|, l.argsClosed), l.argsClosed, names)
    && (x.state.functions.active <==> l.argsClosed < |ps|)
    && Spoken(x, l)
  }

  ghost predicate Spoken(x: Session, l: Log) {
    && x.heard.text == l.text && x.heard.thinking == l.thinking && (x.state.textSeen <==> l.text != "")
    && (l.final.None? ==> x.heard.stopReason.None?) && x.heard.id == if l.started then Some(l.id) else None
  }

  lemma ToolsAre(l: Log)
    requires Consistent(l)
    ensures AreTools(ToolPositions(l.items), ToolDrafts(l.items))
    ensures forall k :: 0 <= k < ToolCount(l) ==>
              ToolDrafts(l.items)[k].id != "" && ToolDrafts(l.items)[k] == l.items[ToolPositions(l.items)[k]]
    ensures forall k :: 0 <= k < l.argsClosed ==> ToolDrafts(l.items)[k].arguments != ""
    ensures l.itemsClosed <= l.argsClosed <= ToolCount(l)
  {
    hide MarkersConsistent;
    assert forall k :: 0 <= k < |ToolPositions(l.items)| ==> l.items[ToolPositions(l.items)[k]].ToolDraft?;
  }

  /** A block is started for speech: only the cursor moves. */
  lemma StartHeard(h: Heard, s: AnthropicState, kind: BlockType, block: Block, piece: Frame, h': Heard)
    requires !block.ToolBlock? && kind != NoBlock && Hear(h, piece) == Some(h')
    ensures HearAll(h, Start(s, kind, block).frames + [piece]) == Some(h')
    ensures var t := Start(s, kind, block).state;
            t == s.(cursor := t.cursor) && t.cursor.kind == kind && t.cursor.index >= s.cursor.index
  {
    var start := Start(s, kind, block);
    HearOne(h, piece);
    HearNone(h);
    HearOne(h, BlockStop(s.cursor.index));
    HearOne(h, BlockStart(start.state.cursor.index, block));
    if s.cursor.kind != NoBlock && s.cursor.kind != kind {
      HearAppend(h, [BlockStop(s.cursor.index)], [BlockStart(start.state.cursor.index, block)]);
    }
    assert [] + [BlockStart(start.state.cursor.index, block)] == [BlockStart(start.state.cursor.index, block)];
    assert HearAll(h, start.frames) == Some(h);
    HearAppend(h, start.frames, [piece]);
    hide HearAll, Start;
  }

  lemma ThinkingInStep(x: Session, l: Log, delta: string, model: string, names: Names)
    requires InStep(x, l, names) && GrowThinking(l, delta).Some?
    ensures var y := Exchange(x, AnthropicStream(x.state, ReasoningDelta(delta), model, names));
            y.Some? && InStep(y.value, GrowThinking(l, delta).value, names)
  {
    hide Start, HearAll, ToolPositions, ToolDrafts, Serves, Pump, FunctionDone, ItemFinished, Terminate, AddPending,
         ExtendArguments, OfferArguments;
    DraftsAppend(l.items, ThinkingDraft);
    PositionsAppend(l.items, ThinkingDraft);
    var t := Start(x.state, ThinkingType, ThinkingBlock).state;
    var h := x.heard.(thinking := x.heard.thinking + delta);
    StartHeard(x.heard, x.state, ThinkingType, ThinkingBlock, ThinkingPiece(t.cursor.index, delta), h);
    CursorServes(x, Session(t, h), ToolPositions(l.items), ToolDrafts(l.items),
                 StartedTools(ToolCount(l), l.argsClosed), l.argsClosed, names);
  }

  lemma TextInStep(x: Session, l: Log, delta: string, model: string, names: Names)
    requires InStep(x, l, names) && GrowText(l, delta).Some?
    ensures var y := Exchange(x, AnthropicStream(x.state, TextDelta(delta), model, names));
            y.Some? && InStep(y.value, GrowText(l, delta).value, names)
  {
    hide Start, HearAll, ToolPositions, ToolDrafts, Serves, Pump, FunctionDone, ItemFinished, Terminate, AddPending,
         ExtendArguments, OfferArguments;
    DraftsAppend(l.items, TextDraft);
    PositionsAppend(l.items, TextDraft);
    var s := x.state.(textSeen := true);
    var t := Start(s, TextType, TextBlock).state;
    var h := x.heard.(text := x.heard.text + delta);
    StartHeard(x.heard, s, TextType, TextBlock, TextPiece(t.cursor.index, delta), h);
    CursorServes(x, Session(t, h), ToolPositions(l.items), ToolDrafts(l.items),
                 StartedTools(ToolCount(l), l.argsClosed), l.argsClosed, names);
  }

  /** A new tool is opened at once when it is the first, and waits otherwise. */
  lemma AddOpens(x: Session, ps: seq<nat>, tools: seq<Draft>, p: nat, d: Draft, names: Names)
    requires Serves(x, ps, tools, StartedTools(|ps|, 0), 0, names) && (x.state.functions.active <==> |ps| > 0)
    requires d.ToolDraft? && d.id != "" && d.arguments == "" && forall k :: 0 <= k < |ps| ==> ps[k] < p
    ensures var y := Exchange(x, Pump(AddPending(x.state, p, FunctionCall(d.id, d.id, d.name, "")), names));
            && y.Some? && Serves(y.value, ps + [p], tools + [d], 1, 0, names) && y.value.state.functions.active
            && SameSpeech(x, y.value)
  {
    hide HearAll, Serves, Pump;
    ServesSays(x, ps, tools, StartedTools(|ps|, 0), 0, names);
    AddServes(x, ps, tools, StartedTools(|ps|, 0), 0, p, d, names);
    var y := x.(state := AddPending(x.state, p, FunctionCall(d.id, d.id, d.name, "")));
    assert y.state.functions.active == x.state.functions.active && y.state.textSeen == x.state.textSeen;
    hide AddPending;
    if |ps| == 0 {
      OpenServes(y, ps + [p], tools + [d], 0, 0, names);
    } else {
      HearNone(x.heard);
      PumpIdle(y, ps + [p], tools + [d], 1, 0, names);
    }
  }

  /** The event that adds a tool, as a step of the queue and as a step of the log. */
  lemma AddIsPump(s: AnthropicState, l: Log, index: int, item: Item, model: string, names: Names)
    requires GrowTools(l, index, item).Some?
    ensures AnthropicStream(s, ItemAdded(index, item), model, names)
         == Pump(AddPending(s, index, FunctionCall(item.id, item.id, item.name, "")), names)
    ensures index == |l.items| && item.FunctionCall? && item.id != "" && l.argsClosed == 0 && l.final.None?
    ensures GrowTools(l, index, item).value == l.(items := l.items + [ToolDraft(item.id, item.name, "")])
  {
    hide Pump, AddPending, HasTool;
  }

  lemma AddInStep(x: Session, l: Log, index: int, item: Item, model: string, names: Names)
    requires InStep(x, l, names) && GrowTools(l, index, item).Some?
    ensures var y := Exchange(x, AnthropicStream(x.state, ItemAdded(index, item), model, names));
            y.Some? && InStep(y.value, GrowTools(l, index, item).value, names)
  {
    hide Exchange, ToolPositions, ToolDrafts, Serves, Pump, AddPending, AnthropicStream, GrowTools;
    AddIsPump(x.state, l, index, item, model, names);
    var d := ToolDraft(item.id, item.name, "");
    var ps, tools := ToolPositions(l.items), ToolDrafts(l.items);
    DraftsAppend(l.items, d);
    PositionsAppend(l.items, d);
    AddOpens(x, ps, tools, index, d, names);
  }

  lemma GrowInStep(x: Session, l: Log, id: string, index: Option<int>, delta: string, model: string, names: Names)
    requires InStep(x, l, names) && GrowArguments(l, id, index, delta).Some?
    ensures var y := Exchange(x, AnthropicStream(x.state, ArgumentsDelta("", id, index, delta), model, names));
            y.Some? && InStep(y.value, GrowArguments(l, id, index, delta).value, names)
  {
    hide Exchange, ToolPositions, ToolDrafts, Serves, Pump, FunctionDone, ItemFinished, Terminate, ExtendArguments,
         OfferArguments, HasTool;
    var ps, tools := ToolPositions(l.items), ToolDrafts(l.items);
    var d := l.items[index.value];
    var k := DraftsKept(l.items, index.value, d.(arguments := d.arguments + delta));
    PositionsKept(l.items, index.value, d.(arguments := d.arguments + delta));
    if k == 0 {
      RunningExtends(x, ps, tools, 1, 0, delta, names);
    } else {
      WaitingExtends(x, ps, tools, 1, 0, k, delta, names);
    }
  }

  lemma CloseArgumentsInStep(x: Session, l: Log, id: string, index: Option<int>, arguments: string, model: string,
        names: Names)
    requires InStep(x, l, names) && Consistent(l) && ClosesArguments(l, id, index, arguments)
    ensures var y := Exchange(x, AnthropicStream(x.state, ArgumentsDone("", id, index, arguments), model, names));
            y.Some? && InStep(y.value, l.(argsClosed := l.argsClosed + 1), names)
  {
    hide Exchange, ToolPositions, ToolDrafts, Serves, Pump, FunctionDone, ItemFinished, Terminate, ExtendArguments,
         OfferArguments, Consistent;
    ToolsAre(l);
    CloseServes(x, ToolPositions(l.items), ToolDrafts(l.items), l.argsClosed, arguments, names);
  }

  lemma CloseThinkingInStep(x: Session, l: Log, index: int, item: Item, names: Names)
    requires InStep(x, l, names) && item.Reasoning? && CloseItem(l, index, item).Some?
    ensures var y := Exchange(x, ItemFinished(x.state, index, item, names));
            y.Some? && InStep(y.value, CloseItem(l, index, item).value, names)
  {
    hide HearAll, ToolPositions, ToolDrafts, Serves, Pump, FunctionDone, Terminate, ExtendArguments, OfferArguments;
    HearNone(x.heard);
    HearOne(x.heard, SignaturePiece(x.state.cursor.index, item.encrypted));
    var y := x.(heard := x.heard.(signature := x.heard.signature + item.encrypted));
    CursorServes(x, y, ToolPositions(l.items), ToolDrafts(l.items), StartedTools(ToolCount(l), l.argsClosed),
                 l.argsClosed, names);
  }

  lemma CloseTextInStep(x: Session, l: Log, index: int, item: Item, names: Names)
    requires InStep(x, l, names) && Consistent(l) && item.Message? && CloseItem(l, index, item).Some?
    ensures var y := Exchange(x, ItemFinished(x.state, index, item, names));
            y.Some? && InStep(y.value, CloseItem(l, index, item).value, names)
  {
    hide HearAll, ToolPositions, ToolDrafts, Serves, Pump, FunctionDone, Terminate, ExtendArguments, OfferArguments,
         ToolsDistinct, ClosingConsistent;
    HearNone(x.heard);
  }

  lemma CloseToolInStep(x: Session, l: Log, index: int, item: Item, names: Names)
    requires InStep(x, l, names) && Consistent(l) && item.FunctionCall? && CloseItem(l, index, item).Some?
    ensures var y := Exchange(x, ItemFinished(x.state, index, item, names));
            y.Some? && InStep(y.value, CloseItem(l, index, item).value, names)
  {
    hide Exchange, ToolPositions, ToolDrafts, Serves, ItemFinished, Consistent, Render;
    ToolsAre(l);
    ItemServes(x, ToolPositions(l.items), ToolDrafts(l.items), StartedTools(ToolCount(l), l.argsClosed), l.argsClosed,
               l.itemsClosed, item, names);
  }

  // ----- The end of the message -----

  function Ended(h: Heard, reason: string, sequence: string, usage: MessageUsage): Heard {
    h.(stopReason := Some(reason), stopSequence := sequence, usage := Some(usage))
  }

  lemma EndFrames(x: Session, r: Response, names: Names)
    requires Pump(x.state, names) == Sent(x.state, []) && !x.state.functions.active && x.heard.stopReason.None?
    ensures var y := Exchange(x, Terminate(x.state, r, names));
            && y.Some? && y.value.state.functions == x.state.functions
            && y.value.state == x.state.(cursor := y.value.state.cursor)
            && y.value.state.cursor.index >= x.state.cursor.index
            && y.value.heard
              == Ended(x.heard, AnthropicStopReason(r, x.state.hasClientTool), r.stopSequence, UsageFor(r))
  {
    hide AnthropicStopReason, UsageFor, Pump;
    var end := MessageDelta(AnthropicStopReason(r, x.state.hasClientTool), r.stopSequence, UsageFor(r));
    var closed := CloseBlock(x.state);
    var h := Ended(x.heard, AnthropicStopReason(r, x.state.hasClientTool), r.stopSequence, UsageFor(r));
    HearNone(x.heard);
    HearOne(x.heard, BlockStop(x.state.cursor.index));
    HearOne(x.heard, end);
    HearOne(h, MessageStop);
    HearAppend(x.heard, [end], [MessageStop]);
    assert [end] + [MessageStop] == [end, MessageStop];
    HearAppend(x.heard, closed.frames, [end, MessageStop]);
    assert [] + [] + closed.frames == closed.frames;
    hide HearAll;
  }

  lemma TerminateInStep(x: Session, l: Log, r: Response, names: Names)
    requires InStep(x, l, names) && l.final.None? && l.argsClosed == ToolCount(l)
    ensures var y := Exchange(x, Terminate(x.state, r, names));
            && y.Some? && InStep(y.value, l.(final := Some(r)), names)
            && y.value.heard == Ended(x.heard, AnthropicStopReason(r, ToolCount(l) > 0), r.stopSequence, UsageFor(r))
  {
    hide Exchange, ToolPositions, ToolDrafts, Serves, Pump, Terminate, AnthropicStopReason, UsageFor;
    var n := ToolCount(l);
    var ps, tools := ToolPositions(l.items), ToolDrafts(l.items);
    PumpIdle(x, ps, tools, n, n, names);
    EndFrames(x, r, names);
    var y := Exchange(x, Terminate(x.state, r, names)).value;
    CursorServes(x, y, ps, tools, n, n, names);
    ToolFlag(x, ps, tools, n, n, names);
  }

  lemma ToolFlag(x: Session, ps: seq<nat>, tools: seq<Draft>, m: nat, c: nat, names: Names)
    requires Serves(x, ps, tools, m, c, names)
    ensures x.state.hasClientTool <==> m > 0
  {
  }

  lemma StepInStep(x: Session, l: Log, b: Body, model: string, names: Names)
    requires InStep(x, l, names) && Consistent(l) && Advance(l, b).Some?
    ensures var y := Exchange(x, AnthropicStream(x.state, b, model, names));
            y.Some? && InStep(y.value, Advance(l, b).value, names)
  {
    hide Exchange, ToolPositions, GrowThinking, GrowText, GrowTools, GrowArguments, ClosesArguments, CloseItem,
         Consistent, InStep;
    match b {
      case Created(_, _) => CreatedInStep(x, l, b, model, names);
      case ReasoningDelta(delta) => ThinkingInStep(x, l, delta, model, names);
      case TextDelta(delta) => TextInStep(x, l, delta, model, names);
      case ItemAdded(index, item) =>
        if AddsTool(b) { AddInStep(x, l, index, item, model, names); } else { PassedInStep(x, b, model, names); }
      case ArgumentsDelta(_, id, index, delta) => GrowInStep(x, l, id, index, delta, model, names);
      case ArgumentsDone(_, id, index, arguments) => CloseArgumentsInStep(x, l, id, index, arguments, model, names);
      case ItemDone(_, index, item) =>
        if FinishesItem(b) { ItemInStep(x, l, index, item, model, names); } else { PassedInStep(x, b, model, names); }
      case OtherEvent => PassedInStep(x, b, model, names);
      case Completed(r) => TerminateInStep(x, l, r.value, names);
      case Incomplete(r) => TerminateInStep(x, l, r.value, names);
      case _ =>
    }
  }

  lemma PassedInStep(x: Session, b: Body, model: string, names: Names)
    requires b.OtherEvent? || (b.ItemAdded? && !AddsTool(b)) || (b.ItemDone? && !FinishesItem(b))
    ensures Exchange(x, AnthropicStream(x.state, b, model, names)) == Some(x)
  {
    HearNone(x.heard);
    hide HearAll, Pump;
  }

  lemma ItemInStep(x: Session, l: Log, index: int, item: Item, model: string, names: Names)
    requires InStep(x, l, names) && Consistent(l) && CloseItem(l, index, item).Some?
    ensures var y := Exchange(x, AnthropicStream(x.state, ItemDone("", index, item), model, names));
            y.Some? && InStep(y.value, CloseItem(l, index, item).value, names)
  {
    hide Exchange, ToolPositions, Consistent, InStep, ItemFinished;
    match item {
      case Reasoning(_, _, _) => CloseThinkingInStep(x, l, index, item, names);
      case Message(_, _) => CloseTextInStep(x, l, index, item, names);
      case FunctionCall(_, _, _, _) => CloseToolInStep(x, l, index, item, names);
      case OtherItem =>
    }
  }

  lemma CreatedInStep(x: Session, l: Log, b: Body, model: string, names: Names)
    requires InStep(x, l, names) && b.Created? && Advance(l, b).Some?
    ensures var y := Exchange(x, AnthropicStream(x.state, b, model, names));
            y.Some? && InStep(y.value, Advance(l, b).value, names)
  {
    hide ToolPositions, ToolDrafts, Serves, HearAll;
    HearOne(x.heard, MessageStart(b.id, if b.model != "" then b.model else model));
    var y := Session(x.state.(started := true), x.heard.(id := Some(b.id)));
    CursorServes(x, y, ToolPositions(l.items), ToolDrafts(l.items), StartedTools(ToolCount(l), l.argsClosed),
                 l.argsClosed, names);
  }

  lemma EmptyInStep(names: Names)
    ensures InStep(Session(INITIAL, NOTHING), EMPTY_LOG, names)
  {
  }

  lemma {:induction false} PrefixInStep(model: string, bodies: seq<Body>, names: Names)
    requires Feed(EMPTY_LOG, bodies).Some?
    ensures var x := Converse(model, bodies, names);
            x.Some? && InStep(x.value, Feed(EMPTY_LOG, bodies).value, names)
  {
    hide Advance, Exchange, Consistent, InStep, AnthropicStream;
    if bodies == [] {
      EmptyInStep(names);
    } else {
      var most := bodies[..|bodies| - 1];
      PrefixInStep(model, most, names);
      FeedConsistent(most);
      StepInStep(Converse(model, most, names).value, Feed(EMPTY_LOG, most).value, bodies[|bodies| - 1], model, names);
    }
  }

  // ----- The answer from the terminal event -----

  function ToolsIn(content: seq<Content>): seq<Content> {
    if content == [] then []
    else
      var last := content[|content| - 1];
      ToolsIn(content[..|content| - 1]) + if last.ToolContent? then [last] else []
  }

  function TextIn(content: seq<Content>): string {
    if content == [] then ""
    else
      var last := content[|content| - 1];
      TextIn(content[..|content| - 1]) + if last.TextContent? then last.text else ""
  }

  function ThinkingIn(content: seq<Content>): string {
    if content == [] then ""
    else
      var last := content[|content| - 1];
      ThinkingIn(content[..|content| - 1]) + if last.ThinkingContent? then last.thinking else ""
  }

  lemma ContentMore(content: seq<Content>, more: seq<Content>)
    requires |more| <= 1
    ensures more == [] ==> content + more == content
    ensures more != [] ==>
      && ToolsIn(content + more) == ToolsIn(content) + (if more[0].ToolContent? then [more[0]] else [])
      && TextIn(content + more) == TextIn(content) + (if more[0].TextContent? then more[0].text else "")
      && ThinkingIn(content + more) == ThinkingIn(content) + (if more[0].ThinkingContent? then more[0].thinking else "")
  {
    if more != [] {
      assert (content + more)[..|content|] == content;
    }
  }

  function ToolContentOf(d: Draft, names: Names): Content
    requires d.ToolDraft?
  {
    ToolContent(d.id, ClientName(names, d.name), d.arguments)
  }

  ghost predicate ToolsSaid(contents: seq<Content>, tools: seq<Draft>, names: Names) {
    |contents| == |tools|
    && forall k :: 0 <= k < |tools| ==> tools[k].ToolDraft? && contents[k] == ToolContentOf(tools[k], names)
  }

  /** What the content block of one finished item says. */
  ghost predicate Says(c: Content, l: Log, d: Draft, names: Names) {
    match d
    case ThinkingDraft =>
      l.reasoning.Some? && l.reasoning.value.Reasoning? && c == ThinkingContent(l.thinking, l.reasoning.value.encrypted)
    case TextDraft => c == TextContent(l.text)
    case ToolDraft(_, _, _) => c == ToolContentOf(d, names)
  }

  /** A finished item makes one content block. */
  lemma RenderContent(l: Log, d: Draft, names: Names)
    requires l.reasoning.Some? ==> l.reasoning.value.Reasoning? && l.reasoning.value.summary == [l.thinking]
    requires d.ThinkingDraft? ==> l.reasoning.Some? && l.thinking != ""
    ensures var content := ContentOf(Render(l, d), names);
            |content| == 1 && Says(content[0], l, d, names)
  {
    assert FinalText(l.text)[..0] == [] && [l.thinking][..0] == [];
    assert TextContents(FinalText(l.text)[..0]) == [] && Joined([l.thinking][..0]) == "";
    assert Joined([l.thinking]) == l.thinking;
  }

  /** One more item of the output, and its content. */
  lemma ContentsNext(l: Log, n: nat, names: Names) returns (c: Content)
    requires MarkersConsistent(l) && ReasoningSettled(l) && n < |l.items|
    ensures |Rendered(l)| == |l.items|
    ensures Contents(Rendered(l)[..n + 1], names) == Contents(Rendered(l)[..n], names) + [c]
    ensures Says(c, l, l.items[n], names)
  {
    hide ContentOf, Render;
    assert Rendered(l)[..n + 1][..n] == Rendered(l)[..n];
    assert Rendered(l)[..n + 1][n] == Render(l, l.items[n]);
    RenderContent(l, l.items[n], names);
    c := ContentOf(Render(l, l.items[n]), names)[0];
    assert ContentOf(Render(l, l.items[n]), names) == [c];
  }

  lemma {:induction false} ToolsSay(l: Log, n: nat, names: Names)
    requires MarkersConsistent(l) && ReasoningSettled(l) && n <= |l.items|
    ensures ToolsSaid(ToolsIn(Contents(Rendered(l)[..n], names)), ToolDrafts(l.items[..n]), names)
  {
    hide MarkersConsistent, ToolDrafts, ToolsIn, Contents, Rendered, ToolsSaid, ClientName;
    if n == 0 {
      assert l.items[..0] == [];
      NoContents(l, names);
    } else {
      ToolsSay(l, n - 1, names);
      var d := l.items[n - 1];
      var c := ContentsNext(l, n - 1, names);
      DraftsAppend(l.items[..n - 1], d);
      assert l.items[..n - 1] + [d] == l.items[..n];
      ToolsSaidMore(Contents(Rendered(l)[..n - 1], names), c, l, ToolDrafts(l.items[..n - 1]), d, names);
    }
  }

  lemma NoContents(l: Log, names: Names)
    ensures Contents(Rendered(l)[..0], names) == []
    ensures ToolsSaid(ToolsIn([]), ToolDrafts([]), names) && TextIn([]) == "" && ThinkingIn([]) == ""
  {
  }

  lemma SaysTool(c: Content, l: Log, d: Draft, names: Names)
    requires Says(c, l, d, names)
    ensures c.ToolContent? <==> d.ToolDraft?
    ensures d.ToolDraft? ==> c == ToolContentOf(d, names)
  {
    hide ClientName;
  }

  lemma ToolsSaidMore(content: seq<Content>, c: Content, l: Log, tools: seq<Draft>, d: Draft, names: Names)
    requires ToolsSaid(ToolsIn(content), tools, names) && Says(c, l, d, names)
    ensures ToolsSaid(ToolsIn(content + [c]), if d.ToolDraft? then tools + [d] else tools, names)
  {
    hide ToolsIn, TextIn, ThinkingIn, Says, ToolContentOf;
    ContentMore(content, [c]);
    SaysTool(c, l, d, names);
    if !d.ToolDraft? { assert ToolsIn(content) + [] == ToolsIn(content); }
  }

  lemma MarkersAt(l: Log, p: nat)
    requires MarkersConsistent(l) && p < |l.items|
    ensures l.textAt == Some(p) <==> l.items[p].TextDraft?
    ensures l.thinkingAt == Some(p) <==> l.items[p].ThinkingDraft?
    ensures l.thinkingAt.Some? ==> l.thinking != ""
    ensures l.reasoning.Some? ==> l.reasoning.value.Reasoning? && l.reasoning.value.summary == [l.thinking]
  {
  }

  lemma {:induction false} TextsSay(l: Log, n: nat, names: Names)
    requires MarkersConsistent(l) && ReasoningSettled(l) && n <= |l.items|
    ensures var content := Contents(Rendered(l)[..n], names);
            && TextIn(content) == (if l.textAt.Some? && l.textAt.value < n then l.text else "")
            && ThinkingIn(content) == (if l.thinkingAt.Some? && l.thinkingAt.value < n then l.thinking else "")
  {
    hide MarkersConsistent, ToolsIn, TextIn, ThinkingIn, Contents, Rendered;
    if n == 0 {
      NoContents(l, names);
    } else {
      TextsSay(l, n - 1, names);
      MarkersAt(l, n - 1);
      var c := ContentsNext(l, n - 1, names);
      ContentMore(Contents(Rendered(l)[..n - 1], names), [c]);
    }
  }

  lemma RenderedCalls(l: Log)
    requires MarkersConsistent(l)
    ensures HasCall(Rendered(l)) <==> ToolCount(l) > 0
  {
    if ToolCount(l) > 0 {
      var p := ToolPositions(l.items)[0];
      assert Rendered(l)[p].FunctionCall?;
    }
    if HasCall(Rendered(l)) {
      var p :| 0 <= p < |l.items| && Rendered(l)[p].FunctionCall?;
      assert l.items[p].ToolDraft?;
    }
  }

  // ----- Main results -----

  /**
   What the client heard is the answer: the same id, tools in order at increasing indexes, text, thinking, stop and
   usage.
   */
  ghost predicate Delivered(h: Heard, a: Answer) {
    var tools := ToolsIn(a.content);
    && |h.tools| == |tools|
    && (forall k :: 0 <= k < |tools| ==> tools[k] == ToolContent(h.tools[k].id, h.tools[k].name, h.tools[k].json))
    && (forall i, j :: 0 <= i < j < |h.tools| ==> h.tools[i].index < h.tools[j].index)
    && h.id == Some(a.id) && h.text == TextIn(a.content) && h.thinking == ThinkingIn(a.content)
    && h.stopReason == Some(a.stopReason) && h.stopSequence == a.stopSequence && h.usage == Some(a.usage)
  }

  lemma InStepSays(x: Session, l: Log, names: Names)
    requires InStep(x, l, names) && l.argsClosed == ToolCount(l)
    ensures var tools := ToolDrafts(l.items);
            && |x.heard.tools| == |tools|
            && (forall k :: 0 <= k < |tools| ==> x.heard.tools[k] == UseOf(tools[k], x.heard.tools[k].index, names))
            && (forall i, j :: 0 <= i < j < |x.heard.tools| ==> x.heard.tools[i].index < x.heard.tools[j].index)
            && x.heard.text == l.text && x.heard.thinking == l.thinking && (l.started ==> x.heard.id == Some(l.id))
  {
    hide ToolPositions, RestPending, Marked;
  }

  lemma ConcludeSays(l: Log, response: Option<Response>)
    requires Conclude(l, response).Some?
    ensures var n := Conclude(l, response).value;
            && n.final == response && response.Some? && response.value.output == Rendered(n) && ReasoningSettled(n)
            && n.argsClosed == ToolCount(n) == ToolCount(l) && n.items == l.items && n.started
            && response.value.id == n.id
  {
    hide Rendered;
    SameRendering(l, response);
  }

  lemma FinishedSession(model: string, bodies: seq<Body>, names: Names)
    requires Conforms(bodies)
    ensures var x := Converse(model, bodies, names);
            var l := Feed(EMPTY_LOG, bodies).value;
            && x.Some? && InStep(x.value, l, names) && l.argsClosed == ToolCount(l) && ReasoningSettled(l)
            && Consistent(l)
            && TerminalResponse(bodies) == l.final && l.final.value.output == Rendered(l) && l.started
            && l.final.value.id == l.id
            && x.value.heard.stopReason == Some(AnthropicStopReason(l.final.value, ToolCount(l) > 0))
            && x.value.heard.stopSequence == l.final.value.stopSequence
            && x.value.heard.usage == Some(UsageFor(l.final.value))
  {
    hide InStep, Consistent, Exchange, Rendered, AnthropicStream, ToolPositions, AnthropicStopReason;
    PrefixInStep(model, bodies, names);
    FeedConsistent(bodies);
    var most, last := bodies[..|bodies| - 1], bodies[|bodies| - 1];
    PrefixInStep(model, most, names);
    LastConcludes(Feed(EMPTY_LOG, most).value, last, most);
    hide Advance;
    EndsToldBy(Converse(model, most, names).value, Feed(EMPTY_LOG, most).value, last, model, names);
    ConcludeSays(Feed(EMPTY_LOG, most).value, last.response);
    hide Conclude;
    TerminalFound(bodies);
  }

  lemma EndsToldBy(x: Session, l: Log, b: Body, model: string, names: Names)
    requires InStep(x, l, names) && IsTerminal(b) && Conclude(l, b.response).Some?
    ensures var y := Exchange(x, AnthropicStream(x.state, b, model, names));
            && y.Some?
            && y.value.heard.stopReason == Some(AnthropicStopReason(b.response.value, ToolCount(l) > 0))
            && y.value.heard.stopSequence == b.response.value.stopSequence
            && y.value.heard.usage == Some(UsageFor(b.response.value))
  {
    hide InStep, Exchange, Rendered, ToolPositions, AnthropicStopReason, UsageFor, Terminate;
    TerminateInStep(x, l, b.response.value, names);
  }

  lemma AnswerSays(model: string, bodies: seq<Body>, l: Log, names: Names)
    requires Consistent(l) && ReasoningSettled(l) && TerminalResponse(bodies) == l.final && l.final.Some?
    requires l.final.value.output == Rendered(l)
    ensures var a := AnthropicResponse(model, bodies, names);
            && a.Some? && ToolsSaid(ToolsIn(a.value.content), ToolDrafts(l.items), names)
            && TextIn(a.value.content) == l.text && ThinkingIn(a.value.content) == l.thinking
            && a.value.stopReason == AnthropicStopReason(l.final.value, ToolCount(l) > 0)
            && a.value.usage == UsageFor(l.final.value)
            && a.value.id == l.final.value.id && a.value.stopSequence == l.final.value.stopSequence
  {
    assert Rendered(l)[..|l.items|] == Rendered(l) && l.items[..|l.items|] == l.items;
    hide TerminalResponse, Contents, ToolsIn, TextIn, ThinkingIn, ToolDrafts, AnthropicStopReason, UsageFor, Rendered,
         HasCall;
    ToolsSay(l, |l.items|, names);
    TextsSay(l, |l.items|, names);
    RenderedCalls(l);
  }

  /**
   For every conforming stream the client accepts every frame, and hears each tool once, in order, at increasing
   block indexes, its input pieces adding up to its final arguments; id, text, thinking, stop reason and sequence,
   and usage match the answer too.
   */
  lemma ToolsDelivered(model: string, bodies: seq<Body>, names: Names)
    requires Conforms(bodies)
    ensures var x := Converse(model, bodies, names);
            var a := AnthropicResponse(model, bodies, names);
            x.Some? && a.Some? && Delivered(x.value.heard, a.value)
  {
    hide Consistent, ToolsIn, TextIn, ThinkingIn, AnthropicStopReason, InStep, Converse, AnthropicResponse, Feed;
    var l := Feed(EMPTY_LOG, bodies).value;
    FinishedSession(model, bodies, names);
    InStepSays(Converse(model, bodies, names).value, l, names);
    AnswerSays(model, bodies, l, names);
  }

  /** Tool delivery for every run the Devin mapper accepts. */
  lemma DevinToolsDelivered(
      selected: string, id: string, limit: int, frames: seq<MapperSteps.Frame>, valid: MapperSteps.JsonTest,
      model: string, names: Names)
    requires MapperConformance.Run(MapperSteps.Initial(selected, id, limit), frames, valid).ok
    ensures var bodies := Bodies(MapperConformance.Run(MapperSteps.Initial(selected, id, limit), frames, valid).events);
            var x := Converse(model, bodies, names);
            var a := AnthropicResponse(model, bodies, names);
            x.Some? && a.Some? && Delivered(x.value.heard, a.value)
  {
    hide MapperConformance.Run, Delivered, Converse, AnthropicResponse;
    MapperConformance.RunConforms(selected, id, limit, frames, valid);
    var o := MapperConformance.Run(MapperSteps.Initial(selected, id, limit), frames, valid);
    ToolsDelivered(model, Bodies(o.events), names);
  }
}
