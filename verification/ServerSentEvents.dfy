/**
 Server-sent events: writing a frame, and reading one event off a stream of
 bytes. Texts are byte strings, one char a byte.
 */
module SseSteps {
  import opened Basics

  datatype Event = Event(name: string, data: string)

  function SSE(name: string, data: string): string {
    (if name != "" then "event: " + name + "\n" else "") + "data: " + data + "\n\n"
  }

  /** One line as a reader returns it: with its line feed, or what is left when there is none. */
  datatype Line = Line(text: string, rest: string, ended: bool)

  function ReadLine(input: string): (l: Line)
    ensures l.text + l.rest == input && (input != "" ==> l.text != "")
    ensures (l.ended <==> l.text != "" && l.text[|l.text| - 1] == '\n')
    ensures !l.ended ==> l.rest == ""
  {
    if input == "" then Line("", "", false)
    else if input[0] == '\n' then Line(input[..1], input[1..], true)
    else
      var more := ReadLine(input[1..]);
      Line(input[..1] + more.text, more.rest, more.ended)
  }

  function TrimSuffix(s: string, c: char): string {
    if s != "" && s[|s| - 1] == c then s[..|s| - 1] else s
  }

  function TrimEnd(s: string): string {
    TrimSuffix(TrimSuffix(s, '\n'), '\r')
  }

  /** The field of a line: what stands before its first colon. */
  function FieldOf(line: string): string {
    if line == "" || line[0] == ':' then "" else line[..1] + FieldOf(line[1..])
  }

  /** And its value: what stands behind, without one leading space. */
  function ValueOf(line: string): string {
    var value := if |FieldOf(line)| < |line| then line[|FieldOf(line)| + 1..] else "";
    if value != "" && value[0] == ' ' then value[1..] else value
  }

  function Joined(data: seq<string>): string {
    if data == [] then ""
    else if |data| == 1 then data[0]
    else Joined(data[..|data| - 1]) + "\n" + data[|data| - 1]
  }

  /** An event read, and the bytes behind it. */
  datatype Read = Read(event: Event, rest: string)

  /**
   Reading on with what has been collected; None at the end of the stream. What has been collected when the stream
   breaks off is an event too, but only if it breaks inside the line of a field.
   */
  function ReadFrom(input: string, name: string, data: seq<string>, broken: bool): (r: Option<Read>)
    ensures r.Some? ==> |r.value.rest| <= |input|
    decreases |input|
  {
    var l := ReadLine(input);
    var line := TrimEnd(l.text);
    assert |l.text| + |l.rest| == |input|;
    if l.text == "" then if data != [] && !broken then Some(Read(Event(name, Joined(data)), "")) else None
    else if line == "" then
      if data == [] then if l.ended then ReadFrom(l.rest, name, data, broken) else None
      else Some(Read(Event(name, Joined(data)), l.rest))
    else if line[0] == ':' then ReadFrom(l.rest, name, data, broken)
    else
      var named := if FieldOf(line) == "event" then ValueOf(line) else name;
      var collected := if FieldOf(line) == "data" then data + [ValueOf(line)] else data;
      if l.ended then ReadFrom(l.rest, named, collected, broken)
      else if collected != [] then Some(Read(Event(named, Joined(collected)), ""))
      else None
  }

  function ReadEvent(input: string, broken: bool): Option<Read> {
    ReadFrom(input, "", [], broken)
  }

  /** All events of a stream, up to its end or to input that ends inside an event. */
  function ReadAll(input: string, broken: bool): seq<Event>
    decreases |input|
  {
    var r := ReadEvent(input, broken);
    if r.None? || |r.value.rest| >= |input| then [] else [r.value.event] + ReadAll(r.value.rest, broken)
  }
}

/** The data of a single frame, as the translators take it out. */
module EventDataSteps {
  import opened SseSteps

  function TrimBlanks(s: string): string {
    if s != "" && (s[0] == ' ' || s[0] == '\t') then TrimBlanks(s[1..]) else s
  }

  function TrimBreaks(s: string): string {
    if s != "" && (s[|s| - 1] == '\n' || s[|s| - 1] == '\r') then TrimBreaks(s[..|s| - 1]) else s
  }

  function EventData(event: string): string {
    TrimBreaks(if "data:" <= event then TrimBlanks(event[5..]) else event)
  }

  method TakeEventData(input: string) returns (event: string)
    ensures event == EventData(input)
  {
    event := input;
    if |event| >= 5 && event[..5] == "data:" {
      event := event[5..];
      ghost var behind := event;
      while |event| > 0 && (event[0] == ' ' || event[0] == '\t')
        invariant TrimBlanks(event) == TrimBlanks(behind)
        decreases |event|
      {
        event := event[1..];
      }
    }
    ghost var untrimmed := event;
    while |event| > 0 && (event[|event| - 1] == '\n' || event[|event| - 1] == '\r')
      invariant TrimBreaks(event) == TrimBreaks(untrimmed)
      decreases |event|
    {
      event := event[..|event| - 1];
    }
  }

  lemma {:induction false} TrimBlanksShorter(s: string)
    ensures |TrimBlanks(s)| <= |s| && (TrimBlanks(s) == s <==> s == "" || (s[0] != ' ' && s[0] != '\t'))
    ensures TrimBlanks(s) == s[|s| - |TrimBlanks(s)|..]
  {
    if s != "" { TrimBlanksShorter(s[1..]); }
  }

  lemma {:induction false} TrimBreaksShorter(s: string)
    ensures |TrimBreaks(s)| <= |s| && (TrimBreaks(s) == s <==> s == "" || (s[|s| - 1] != '\n' && s[|s| - 1] != '\r'))
  {
    if s != "" { TrimBreaksShorter(s[..|s| - 1]); }
  }

  predicate IsBreak(c: char) {
    c == '\n' || c == '\r'
  }

  /**
   Data taken out of a frame is the data put in, exactly when the frame has no name and the data neither begins with
   a blank nor ends with a line break. Out of a named frame nothing is ever taken.
   */
  lemma DataTakenExactly(name: string, data: string)
    ensures EventData(SSE(name, data)) == data
       <==> name == "" && (data == "" || (data[0] != ' ' && data[0] != '\t' && !IsBreak(data[|data| - 1])))
  {
    hide EventData;
    if name == "" {
      assert SSE(name, data) == "data: " + data + "\n\n";
      UnnamedTaken(data);
    } else {
      NamedKept(name, data);
    }
  }

  lemma UnnamedTaken(data: string)
    ensures EventData("data: " + data + "\n\n") == data
       <==> data == "" || (data[0] != ' ' && data[0] != '\t' && data[|data| - 1] != '\n' && data[|data| - 1] != '\r')
  {
    var behind := data + "\n\n";
    FrameBehind(data);
    hide EventData;
    if data == "" {
      OnlyBreaks();
      assert behind == "\n\n";
    } else {
      TwoBreaks(TrimBlanks(behind), data, behind);
    }
  }

  /** Trimming line breaks leaves a prefix that does not end in one, and drops nothing else. */
  lemma {:induction false} TrimBreaksSays(s: string)
    ensures var t := TrimBreaks(s);
            && t <= s && (t != "" ==> !IsBreak(t[|t| - 1])) && forall i :: |t| <= i < |s| ==> IsBreak(s[i])
  {
    if s != "" { TrimBreaksSays(s[..|s| - 1]); }
  }

  lemma NamedKept(name: string, data: string)
    requires name != ""
    ensures EventData(SSE(name, data)) != data
  {
    var head := "event: " + name + "\n" + "data: ";
    var frame := head + data + "\n\n";
    assert SSE(name, data) == frame;
    assert frame[0] == 'e';
    TrimBreaksSays(frame);
    hide TrimBreaks;
    if data != "" { assert frame[|head| + |data| - 1] == data[|data| - 1]; }
  }

  lemma FrameBehind(data: string)
    ensures EventData("data: " + data + "\n\n") == TrimBreaks(TrimBlanks(data + "\n\n"))
  {
    hide TrimBreaks;
    var frame := "data: " + data + "\n\n";
    var behind := data + "\n\n";
    assert frame[5..] == " " + behind && (" " + behind)[1..] == behind;
    assert "data:" <= frame;
  }

  lemma OnlyBreaks()
    ensures TrimBreaks(TrimBlanks("\n\n")) == ""
  {
    assert "\n\n"[..1] == "\n" && "\n"[..0] == "";
    assert TrimBreaks("\n") == "" && TrimBlanks("\n\n") == "\n\n";
  }

  lemma TwoBreaks(left: string, data: string, behind: string)
    requires data != "" && behind == data + "\n\n" && left == TrimBlanks(behind)
    ensures TrimBreaks(left) == data
       <==> data[0] != ' ' && data[0] != '\t' && data[|data| - 1] != '\n' && data[|data| - 1] != '\r'
  {
    TrimBlanksShorter(behind);
    var n := |behind| - |left|;
    BlanksLeaveBreaks(data);
    assert |left| >= 2 && left == behind[n..];
    var core := left[..|left| - 2];
    assert left[..|left| - 1][..|left| - 2] == core;
    assert TrimBreaks(left) == TrimBreaks(left[..|left| - 1]) == TrimBreaks(core);
    TrimBreaksShorter(core);
    if n == 0 {
      assert core == data;
    }
  }

  lemma {:induction false} BlanksLeaveBreaks(data: string)
    ensures |TrimBlanks(data + "\n\n")| >= 2
  {
    var behind := data + "\n\n";
    if data != "" {
      assert behind[1..] == data[1..] + "\n\n";
      BlanksLeaveBreaks(data[1..]);
    }
  }
}

/** The parser over its reader. */
module SseParser {
  import opened Basics
  import opened SseSteps

  method WriteSSE(name: string, data: string) returns (out: string)
    ensures out == SSE(name, data)
  {
    out := "";
    if name != "" {
      out := out + "event: ";
      out := out + name;
      out := out + "\n";
    }
    out := out + "data: ";
    out := out + data;
    out := out + "\n\n";
    assert name != "" ==> out == "event: " + name + "\n" + "data: " + data + "\n\n";
  }

  class SSEParser {
    var unread: string
    const broken: bool  // whether the body ends in an error

    constructor (body: string, broken: bool)
      ensures unread == body && this.broken == broken
    {
      unread, this.broken := body, broken;
    }

    method ReadString() returns (line: string, ended: bool)
      modifies this`unread
      ensures var l := ReadLine(old(unread)); line == l.text && unread == l.rest && ended == l.ended
    {
      var l := ReadLine(unread);
      line, ended, unread := l.text, l.ended, l.rest;
    }

    /** The next event; at the end of the stream, None once nothing has been collected. */
    method ReadEvent() returns (event: Option<Event>)
      modifies this`unread
      ensures event.Some? ==> SseSteps.ReadEvent(old(unread), broken) == Some(Read(event.value, unread))
      ensures event.None? ==> SseSteps.ReadEvent(old(unread), broken) == None
    {
      var name, data := "", [];
      ghost var input := unread;
      while true
        invariant ReadFrom(unread, name, data, broken) == SseSteps.ReadEvent(input, broken)
        decreases |unread|
      {
        hide ReadLine, TrimEnd, FieldOf, ValueOf, Joined;
        ghost var before := unread;
        var line, ended := ReadString();
        assert line + unread == before;
        assert |line| + |unread| == |before|;
        if line == "" {
          if |data| > 0 && !broken { return Some(Event(name, Joined(data))); }
          return None;
        }
        line := TrimEnd(line);
        if line == "" {
          if |data| == 0 {
            if !ended { return None; }
            continue;
          }
          return Some(Event(name, Joined(data)));
        }
        if line[0] == ':' { continue; }
        var field, value := FieldOf(line), ValueOf(line);
        match field {
          case "event" => name := value;
          case "data" => data := data + [value];
          case _ =>
        }
        if !ended {
          if |data| > 0 { return Some(Event(name, Joined(data))); }
          return None;
        }
      }
    }
  }
}

/** Reading inverts writing. */
module SseLaws {
  import opened Basics
  import opened SseSteps

  predicate NoLineFeed(s: string) {
    forall k :: 0 <= k < |s| ==> s[k] != '\n'
  }

  /** Texts that survive a line of their own. */
  predicate Plain(s: string) {
    NoLineFeed(s) && (s != "" ==> s[|s| - 1] != '\r')
  }

  lemma {:induction false} LineRead(line: string, rest: string)
    requires NoLineFeed(line)
    ensures ReadLine(line + ("\n" + rest)) == Line(line + "\n", rest, true)
  {
    var input := line + ("\n" + rest);
    if line == "" {
      assert input == "\n" + rest && input[..1] == "\n" && input[1..] == rest;
    } else {
      LineRead(line[1..], rest);
      assert input[1..] == line[1..] + ("\n" + rest);
      assert [line[0]] + (line[1..] + "\n") == line + "\n";
    }
  }

  lemma EndTrimmed(line: string)
    requires Plain(line)
    ensures TrimEnd(line + "\n") == line
  {
  }

  lemma EventField(name: string)
    ensures FieldOf("event: " + name) == "event" && ValueOf("event: " + name) == name
  {
    var line := "event: " + name;
    assert FieldOf(line[5..]) == "";
    assert FieldOf(line[4..]) == "t" && FieldOf(line[3..]) == "nt" && FieldOf(line[2..]) == "ent"
           && FieldOf(line[1..]) == "vent";
    assert line[6..] == " " + name && (" " + name)[1..] == name;
  }

  lemma DataField(data: string)
    ensures FieldOf("data: " + data) == "data" && ValueOf("data: " + data) == data
  {
    var line := "data: " + data;
    assert FieldOf(line[4..]) == "";
    assert FieldOf(line[3..]) == "a" && FieldOf(line[2..]) == "ta" && FieldOf(line[1..]) == "ata";
    assert line[5..] == " " + data && (" " + data)[1..] == data;
  }

  lemma PlainWith(prefix: string, s: string)
    requires Plain(prefix) && prefix != "" && prefix[|prefix| - 1] != '\r' && Plain(s)
    ensures Plain(prefix + s)
  {
  }

  /** A written frame is read back, and nothing behind it is touched. */
  lemma FrameRead(name: string, data: string, rest: string, broken: bool)
    requires Plain(name) && Plain(data)
    ensures ReadEvent(SSE(name, data) + rest, broken) == Some(Read(Event(name, data), rest))
  {
    hide ReadLine, TrimEnd, FieldOf, ValueOf;
    var body := "data: " + data + "\n\n" + rest;
    DataRead(name, data, rest, broken);
    if name == "" {
      assert SSE(name, data) + rest == body;
    } else {
      var line := "event: " + name;
      assert SSE(name, data) + rest == line + ("\n" + body);
      PlainWith("event: ", name);
      LineRead(line, body);
      EndTrimmed(line);
      EventField(name);
    }
  }

  lemma DataRead(name: string, data: string, rest: string, broken: bool)
    requires Plain(data)
    ensures ReadFrom("data: " + data + "\n\n" + rest, name, [], broken) == Some(Read(Event(name, data), rest))
  {
    hide ReadLine, TrimEnd, FieldOf, ValueOf;
    var line := "data: " + data;
    assert "data: " + data + "\n\n" + rest == line + ("\n" + ("\n" + rest));
    PlainWith("data: ", data);
    LineRead(line, "\n" + rest);
    EndTrimmed(line);
    DataField(data);
    assert "" + ("\n" + rest) == "\n" + rest;
    LineRead("", rest);
    EndTrimmed("");
    assert "" + "\n" == "\n";
    assert ReadFrom("\n" + rest, name, [data], broken) == Some(Read(Event(name, Joined([data])), rest));
    assert [] + [data] == [data];
  }

  function Frames(events: seq<Event>): string {
    if events == [] then "" else SSE(events[0].name, events[0].data) + Frames(events[1..])
  }

  /** Reading a stream of frames, however it ends, yields exactly the events that were written, in order. */
  lemma {:induction false} FramesRead(events: seq<Event>, broken: bool)
    requires forall k :: 0 <= k < |events| ==> Plain(events[k].name) && Plain(events[k].data)
    ensures ReadAll(Frames(events), broken) == events
    decreases |events|
  {
    hide ReadFrom, Plain;
    if events == [] {
      NothingRead(broken);
    } else {
      FrameRead(events[0].name, events[0].data, Frames(events[1..]), broken);
      FramesRead(events[1..], broken);
      assert events == [events[0]] + events[1..];
    }
  }

  lemma NothingRead(broken: bool)
    ensures ReadEvent("", broken) == None
  {
  }

  /** Data whose frame is cut off behind its line is an event at the end of a stream, but not when the stream breaks. */
  lemma UnfinishedRead(data: string, broken: bool)
    requires Plain(data)
    ensures ReadEvent("data: " + data + "\n", broken) == if broken then None else Some(Read(Event("", data), ""))
  {
    hide ReadLine, TrimEnd, FieldOf, ValueOf;
    var line := "data: " + data;
    assert line + "\n" == line + ("\n" + "");
    PlainWith("data: ", data);
    LineRead(line, "");
    EndTrimmed(line);
    DataField(data);
    assert [] + [data] == [data];
    assert ReadFrom("", "", [data], broken) == if broken then None else Some(Read(Event("", Joined([data])), ""));
  }

  /** Cut off inside the line, what has come of it is an event either way. */
  lemma CutLineRead(data: string, broken: bool)
    requires Plain(data)
    ensures ReadEvent("data: " + data, broken) == Some(Read(Event("", data), ""))
  {
    hide TrimEnd, FieldOf, ValueOf;
    var line := "data: " + data;
    PlainWith("data: ", data);
    NoLineEnd(line);
    DataField(data);
    assert [] + [data] == [data];
  }

  lemma {:induction false} NoLineEnd(line: string)
    requires Plain(line)
    ensures ReadLine(line) == Line(line, "", false) && TrimEnd(line) == line
  {
    if line != "" {
      NoLineEnd(line[1..]);
      assert [line[0]] + line[1..] == line;
    }
  }
}

/** What an event read means, told on the lines it was sent as. */
module SseMeaning {
  import opened Basics
  import opened SseSteps
  import opened SseLaws

  /** A line as sent: a field with its value, behind a space or not; a field alone; a comment; or nothing. */
  datatype Entry =
    | Field(name: string, spaced: bool, value: string, crlf: bool)
    | Bare(name: string, crlf: bool)
    | Comment(text: string, crlf: bool)
    | Blank(crlf: bool)

  function Behind(spaced: bool, value: string): string {
    ":" + ((if spaced then " " else "") + value)
  }

  function Content(e: Entry): string {
    match e
    case Field(name, spaced, value, _) => name + Behind(spaced, value)
    case Bare(name, _) => name
    case Comment(text, _) => ":" + text
    case Blank(_) => ""
  }

  function Sent(e: Entry): string {
    Content(e) + if e.crlf then "\r\n" else "\n"
  }

  function AllSent(entries: seq<Entry>): string {
    if entries == [] then "" else Sent(entries[0]) + AllSent(entries[1..])
  }

  /** A line that says what its entry says. */
  predicate WellSent(e: Entry) {
    && NoLineFeed(Content(e))
    && (!e.crlf && Content(e) != "" ==> Content(e)[|Content(e)| - 1] != '\r')
    && (e.Field? || e.Bare? ==> e.name != "" && ':' !in e.name)
    && (e.Field? && !e.spaced && e.value != "" ==> e.value[0] != ' ')
  }

  predicate Names(e: Entry, name: string) {
    (e.Field? || e.Bare?) && e.name == name
  }

  function ValueSent(e: Entry): string {
    if e.Field? then e.value else ""
  }

  /** The name of the last event line, or the name so far. */
  function LastName(name: string, entries: seq<Entry>): string {
    if entries == [] then name
    else
      var last := entries[|entries| - 1];
      if Names(last, "event") then ValueSent(last) else LastName(name, entries[..|entries| - 1])
  }

  /** What the data lines carry, in order. */
  function DataOf(entries: seq<Entry>): seq<string> {
    if entries == [] then []
    else
      var last := entries[|entries| - 1];
      DataOf(entries[..|entries| - 1]) + if Names(last, "data") then [ValueSent(last)] else []
  }

  /** Texts on lines of their own. */
  function OnLines(texts: seq<string>): string {
    if texts == [] then "" else if |texts| == 1 then texts[0] else texts[0] + "\n" + OnLines(texts[1..])
  }

  /** Blank lines come before all data only. */
  predicate BlanksFirst(entries: seq<Entry>) {
    forall k :: 0 <= k < |entries| && entries[k].Blank? ==> DataOf(entries[..k]) == []
  }

  lemma {:induction false} FieldFound(name: string, behind: string)
    requires ':' !in name && (behind != "" ==> behind[0] == ':')
    ensures FieldOf(name + behind) == name
  {
    if name == "" {
      assert name + behind == behind;
    } else {
      FieldFound(name[1..], behind);
      assert (name + behind)[1..] == name[1..] + behind;
      assert [name[0]] + name[1..] == name;
    }
  }

  lemma ValueFound(name: string, spaced: bool, value: string)
    requires !spaced && value != "" ==> value[0] != ' '
    requires FieldOf(name + Behind(spaced, value)) == name
    ensures ValueOf(name + Behind(spaced, value)) == value
  {
    hide FieldOf;
    var given := (if spaced then " " else "") + value;
    assert (name + Behind(spaced, value))[|name| + 1..] == given;
    assert spaced ==> given[1..] == value;
  }

  lemma BareFound(name: string)
    requires ':' !in name
    ensures FieldOf(name) == name && ValueOf(name) == ""
  {
    FieldFound(name, "");
    assert name + "" == name;
    hide FieldOf;
  }

  lemma ContentRead(e: Entry)
    requires WellSent(e) && (e.Field? || e.Bare?)
    ensures Content(e) != "" && Content(e)[0] != ':'
    ensures FieldOf(Content(e)) == e.name && ValueOf(Content(e)) == ValueSent(e)
  {
    hide FieldOf, ValueOf, NoLineFeed, Behind;
    assert e.name[0] in e.name;
    match e {
      case Field(name, spaced, value, _) =>
        BehindColon(spaced, value);
        FieldFound(name, Behind(spaced, value));
        ValueFound(name, spaced, value);
      case Bare(name, _) => BareFound(name);
    }
  }

  lemma BehindColon(spaced: bool, value: string)
    ensures Behind(spaced, value) != "" && Behind(spaced, value)[0] == ':'
  {
  }

  lemma LineOf(e: Entry, rest: string)
    requires WellSent(e)
    ensures var l := ReadLine(Sent(e) + rest);
            l.text == Sent(e) && l.rest == rest && l.ended && TrimEnd(l.text) == Content(e)
  {
    hide ReadLine, Content, NoLineFeed;
    var content := Content(e);
    var line := content + if e.crlf then "\r" else "";
    assert NoLineFeed(line) by { NoMoreFeeds(content); }
    assert Sent(e) + rest == line + ("\n" + rest) && Sent(e) == line + "\n";
    LineRead(line, rest);
    assert TrimSuffix(line + "\n", '\n') == line;
    assert e.crlf ==> line[..|line| - 1] == content;
  }

  lemma NoMoreFeeds(content: string)
    requires NoLineFeed(content)
    ensures NoLineFeed(content + "\r") && NoLineFeed(content + "")
  {
  }

  lemma EntryRead(e: Entry, rest: string, name: string, data: seq<string>, broken: bool)
    requires WellSent(e) && (e.Blank? ==> data == [])
    ensures ReadFrom(Sent(e) + rest, name, data, broken)
         == ReadFrom(rest, if Names(e, "event") then ValueSent(e) else name,
                     if Names(e, "data") then data + [ValueSent(e)] else data, broken)
  {
    LineOf(e, rest);
    if e.Field? || e.Bare? { ContentRead(e); }
    hide ReadLine, TrimEnd, FieldOf, ValueOf, WellSent;
  }

  lemma {:induction false} EntriesRead(entries: seq<Entry>, rest: string, broken: bool)
    requires (forall k :: 0 <= k < |entries| ==> WellSent(entries[k])) && BlanksFirst(entries)
    ensures ReadEvent(AllSent(entries) + rest, broken)
         == ReadFrom(rest, LastName("", entries), DataOf(entries), broken)
  {
    hide ReadFrom, WellSent, Sent;
    if entries == [] {
      assert AllSent(entries) + rest == rest;
    } else {
      var most, last := entries[..|entries| - 1], entries[|entries| - 1];
      forall k | 0 <= k < |most| && most[k].Blank? ensures DataOf(most[..k]) == [] { assert most[..k] == entries[..k]; }
      AllSentMore(entries);
      assert AllSent(entries) + rest == AllSent(most) + (Sent(last) + rest);
      EntriesRead(most, Sent(last) + rest, broken);
      EntryRead(last, rest, LastName("", most), DataOf(most), broken);
      assert DataOf(most) + [] == DataOf(most);
    }
  }

  lemma {:induction false} AllSentMore(entries: seq<Entry>)
    requires entries != []
    ensures AllSent(entries) == AllSent(entries[..|entries| - 1]) + Sent(entries[|entries| - 1])
  {
    hide Sent;
    if |entries| > 1 {
      AllSentMore(entries[1..]);
      assert entries[1..][..|entries| - 2] == entries[..|entries| - 1][1..];
    } else {
      assert entries[1..] == [] && AllSent([]) == "";
    }
  }

  lemma {:induction false} JoinedOnLines(texts: seq<string>)
    ensures Joined(texts) == OnLines(texts)
    decreases |texts|
  {
    if |texts| > 1 {
      var last := texts[|texts| - 1];
      JoinedOnLines(texts[..|texts| - 1]);
      JoinedOnLines(texts[1..]);
      if |texts| == 2 {
        assert texts[1..] == [last] && texts[..1] == [texts[0]];
      } else {
        var inner := texts[1..|texts| - 1];
        assert texts[..|texts| - 1][1..] == inner == texts[1..][..|texts| - 2];
        JoinedOnLines(inner);
        assert OnLines(texts[..|texts| - 1]) == texts[0] + "\n" + OnLines(inner);
        assert Joined(texts[1..]) == Joined(inner) + "\n" + last;
      }
    }
  }

  lemma FieldSent(name: string, value: string)
    ensures Sent(Field(name, true, value, false)) == name + ": " + value + "\n"
  {
    assert ":" + (" " + value) == ": " + value;
    assert name + (": " + value) == name + ": " + value;
  }

  lemma TwoSent(first: Entry, second: Entry)
    ensures AllSent([first, second]) == Sent(first) + Sent(second)
  {
    hide Sent;
    assert [first, second][1..] == [second] && [second][1..] == [];
    assert AllSent([second]) == Sent(second) + "" == Sent(second);
  }

  /** A frame is written as an event line, if it has a name, a data line and a blank one. */
  lemma FrameSent(name: string, data: string)
    ensures SSE(name, data)
         == (if name != "" then Sent(Field("event", true, name, false)) else "")
            + AllSent([Field("data", true, data, false), Blank(false)])
  {
    var lead := if name != "" then "event: " + name + "\n" else "";
    LineSent("event", "event: ", name);
    LineSent("data", "data: ", data);
    TwoSent(Field("data", true, data, false), Blank(false));
    assert Sent(Blank(false)) == "\n";
    Regrouped(lead, "data: " + data, "\n", "\n");
    Reordered(lead, "data: ", data, "\n\n");
    hide Sent, AllSent;
    assert "\n" + "\n" == "\n\n";
  }

  lemma LineSent(name: string, lead: string, value: string)
    requires lead == name + ": "
    ensures Sent(Field(name, true, value, false)) == lead + value + "\n"
  {
    FieldSent(name, value);
    hide Sent;
  }

  lemma Regrouped(a: string, b: string, c: string, d: string)
    ensures a + ((b + c) + d) == a + (b + (c + d))
  {
    assert (b + c) + d == b + (c + d);
  }

  lemma Reordered(a: string, b: string, c: string, d: string)
    ensures a + b + c + d == a + ((b + c) + d)
  {
  }

  /**
   Whatever lines come before a blank one, with any fields, comments and line ends, the event read has the name of the
   last event line and the data of all data lines, each on a line of its own, and what lies behind is left unread. A
   blank line ends nothing while no data has come, and leaves the name as it is.
   */
  lemma EventMeans(entries: seq<Entry>, blank: Entry, rest: string, broken: bool)
    requires (forall k :: 0 <= k < |entries| ==> WellSent(entries[k])) && BlanksFirst(entries)
    requires blank.Blank? && DataOf(entries) != []
    ensures ReadEvent(AllSent(entries) + (Sent(blank) + rest), broken)
         == Some(Read(Event(LastName("", entries), OnLines(DataOf(entries))), rest))
  {
    EntriesRead(entries, Sent(blank) + rest, broken);
    JoinedOnLines(DataOf(entries));
    LineOf(blank, rest);
    hide ReadLine, TrimEnd, FieldOf, ValueOf, LastName, DataOf, OnLines, BlanksFirst, WellSent;
  }

  /** A stream that ends behind whole lines still yields what they carried, unless it breaks off. */
  lemma EndMeans(entries: seq<Entry>, broken: bool)
    requires (forall k :: 0 <= k < |entries| ==> WellSent(entries[k])) && BlanksFirst(entries)
    ensures ReadEvent(AllSent(entries), broken)
         == if DataOf(entries) == [] || broken then None
            else Some(Read(Event(LastName("", entries), OnLines(DataOf(entries))), ""))
  {
    EntriesRead(entries, "", broken);
    JoinedOnLines(DataOf(entries));
    assert AllSent(entries) + "" == AllSent(entries);
    hide TrimEnd, FieldOf, ValueOf, LastName, DataOf, OnLines, BlanksFirst, WellSent;
    assert ReadLine("").text == "";
  }

  /** Cut off inside a field, a stream yields what has come, even when it breaks; inside a comment, only at its end. */
  lemma CutMeans(entries: seq<Entry>, last: Entry, broken: bool)
    requires (forall k :: 0 <= k < |entries| ==> WellSent(entries[k])) && BlanksFirst(entries)
    requires WellSent(last) && !last.crlf && !last.Blank?
    ensures ReadEvent(AllSent(entries) + Content(last), broken)
         == if DataOf(entries + [last]) == [] || (last.Comment? && broken) then None
            else Some(Read(Event(LastName("", entries + [last]), OnLines(DataOf(entries + [last]))), ""))
  {
    EntriesRead(entries, Content(last), broken);
    JoinedOnLines(DataOf(entries + [last]));
    CutEntryRead(last, LastName("", entries), DataOf(entries), broken);
    OneMore(entries, last);
    hide ReadFrom, OnLines, BlanksFirst, WellSent, AllSent, Content, LastName, DataOf, Joined, Names, ReadEvent;
  }

  lemma OneMore(entries: seq<Entry>, last: Entry)
    ensures LastName("", entries + [last])
         == if Names(last, "event") then ValueSent(last) else LastName("", entries)
    ensures DataOf(entries + [last])
         == if Names(last, "data") then DataOf(entries) + [ValueSent(last)] else DataOf(entries)
  {
    assert (entries + [last])[..|entries|] == entries;
    assert DataOf(entries) + [] == DataOf(entries);
  }

  lemma CutEntryRead(e: Entry, name: string, data: seq<string>, broken: bool)
    requires WellSent(e) && !e.crlf && !e.Blank?
    ensures var named := if Names(e, "event") then ValueSent(e) else name;
            var collected := if Names(e, "data") then data + [ValueSent(e)] else data;
            ReadFrom(Content(e), name, data, broken) ==
            if collected == [] || (e.Comment? && broken) then None
            else Some(Read(Event(named, Joined(collected)), ""))
  {
    var line := Content(e);
    assert Plain(line);
    NoLineEnd(line);
    hide ReadLine, TrimEnd, FieldOf, ValueOf, NoLineFeed, Behind, Joined;
    if e.Comment? {
      assert line == ":" + e.text && line[0] == ':';
      assert ReadFrom(line, name, data, broken) == ReadFrom("", name, data, broken);
      AtEnd(name, data, broken);
    } else {
      ContentRead(e);
    }
  }

  lemma AtEnd(name: string, data: seq<string>, broken: bool)
    ensures ReadFrom("", name, data, broken)
         == if data == [] || broken then None else Some(Read(Event(name, Joined(data)), ""))
  {
  }
}
