/**
 The provider-neutral event stream: what a canonical event says once its JSON
 body has been decoded, and the helpers that both translators share.
 A missing string is "", a missing number is 0, as the decoding helpers have it.
 */
module CanonicalEvents {
  import opened Basics

  datatype PartKind = OutputText | Refusal | OtherPart

  datatype Part = Part(kind: PartKind, text: string, refusal: string)

  datatype Item =
    | Message(id: string, content: seq<Part>)
    | Reasoning(id: string, summary: seq<string>, encrypted: string)
    | FunctionCall(callId: string, id: string, name: string, arguments: string)
    | OtherItem

  datatype Usage = Usage(input: int, output: int, total: int, cached: int, reasoning: int)

  const NO_USAGE := Usage(0, 0, 0, 0, 0)

  datatype Response = Response(
    id: string, model: string, status: string, incompleteReason: string,
    stopReason: string, stopSequence: string, output: seq<Item>, usage: Usage)

  const EMPTY_RESPONSE := Response("", "", "", "", "", "", [], NO_USAGE)

  datatype Body =
    | Created(id: string, model: string)
    | ReasoningDelta(delta: string)
    | TextDelta(delta: string)
    | RefusalDelta(delta: string)
    | ItemAdded(outputIndex: int, item: Item)
    | ArgumentsDelta(callId: string, itemId: string, index: Option<int>, delta: string)
    | ArgumentsDone(callId: string, itemId: string, index: Option<int>, arguments: string)
    | ItemDone(callId: string, outputIndex: int, item: Item)
    | Completed(response: Option<Response>)
    | Incomplete(response: Option<Response>)
    | OtherEvent

  /** One provider event: its sequence number, body, and the usage attached to a terminal event. */
  datatype Event = Event(sequence: nat, body: Body, usage: Usage)

  predicate IsTerminal(b: Body) {
    b.Completed? || b.Incomplete?
  }

  function Bodies(events: seq<Event>): (bodies: seq<Body>) {
    seq(|events|, i requires 0 <= i < |events| => events[i].body)
  }

  /** The response object of a terminal event; reading fields of an absent one gives zero values. */
  function ResponseOf(b: Body): Response
    requires IsTerminal(b)
  {
    if b.response.Some? then b.response.value else EMPTY_RESPONSE
  }

  /** Token totals as reported to a client: a missing total is the sum of both directions. */
  function ReportedUsage(r: Response): Usage {
    var u := r.usage;
    if u.total == 0 then u.(total := u.input + u.output) else u
  }

  function ChatStopReason(r: Response, hasTool: bool): string {
    if hasTool then "tool_calls"
    else if r.status == "incomplete" && r.incompleteReason in ["max_output_tokens", "max_tokens"] then "length"
    else if r.status == "incomplete" && r.incompleteReason == "content_filter" then "content_filter"
    else "stop"
  }

  predicate CarriesResponse(b: Body) {
    IsTerminal(b) && b.response.Some?
  }

  /** The response of the last terminal event that carries one. */
  function TerminalResponse(events: seq<Body>): Option<Response> {
    if events == [] then None
    else
      var last := events[|events| - 1];
      if CarriesResponse(last) then last.response else TerminalResponse(events[..|events| - 1])
  }

  method FindTerminalResponse(events: seq<Body>) returns (r: Option<Response>)
    ensures r == TerminalResponse(events)
    ensures r.None? <==> forall i :: 0 <= i < |events| ==> !CarriesResponse(events[i])
  {
    var i := |events| - 1;
    assert events[..i + 1] == events;
    while i >= 0
      invariant -1 <= i < |events|
      invariant TerminalResponse(events) == TerminalResponse(events[..i + 1])
      invariant forall j :: i < j < |events| ==> !CarriesResponse(events[j])
    {
      assert events[..i + 1][..i] == events[..i];
      if CarriesResponse(events[i]) {
        return events[i].response;
      }
      i := i - 1;
    }
    return None;
  }

  /** The text of a reasoning summary. */
  function Joined(texts: seq<string>): string {
    if texts == [] then "" else Joined(texts[..|texts| - 1]) + texts[|texts| - 1]
  }

  method CollectSummary(summary: seq<string>) returns (text: string)
    ensures text == Joined(summary)
  {
    text := "";
    for i := 0 to |summary|
      invariant text == Joined(summary[..i])
    {
      assert summary[..i + 1][..i] == summary[..i];
      text := text + summary[i];
    }
    assert summary[..|summary|] == summary;
  }

  /** A tool name as the client knows it: the original name when the request's name map has one. */
  function ClientName(reverse: map<string, string>, name: string): string {
    if name in reverse && reverse[name] != "" then reverse[name] else name
  }
}
