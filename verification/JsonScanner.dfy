/**
 Splitting a raw JSON object into its key and value tokens without decoding
 them. Texts are byte strings, one char a byte; a scan returns the index just
 past what it has read.
 */
module JsonScanSteps {
  import opened Basics

  predicate IsJsonSpace(c: char) {
    c == ' ' || c == '\t' || c == '\n' || c == '\r'
  }

  predicate IsDigit(c: char) {
    '0' <= c <= '9'
  }

  function SkipSpace(b: string, i: nat): (j: nat)
    ensures i <= j
    decreases |b| - i
  {
    if i < |b| && IsJsonSpace(b[i]) then SkipSpace(b, i + 1) else i
  }

  /** The end of a string whose opening quote has been passed. */
  function StringEnd(b: string, i: nat): (end: Option<nat>)
    ensures end.Some? ==> i < end.value <= |b|
    decreases |b| - i
  {
    if i >= |b| then None
    else if b[i] == '"' then Some(i + 1)
    else if b[i] != '\\' then StringEnd(b, i + 1)
    else if i + 1 >= |b| then None
    else if b[i + 1] != 'u' then StringEnd(b, i + 2)
    else if i + 5 >= |b| then None
    else StringEnd(b, i + 6)
  }

  function ScanString(b: string, i: nat): (end: Option<nat>)
    ensures end.Some? ==> i < end.value <= |b|
  {
    if i >= |b| || b[i] != '"' then None else StringEnd(b, i + 1)
  }

  predicate Opens(c: char) {
    c == '{' || c == '['
  }

  predicate Closes(c: char) {
    c == '}' || c == ']'
  }

  predicate Matches(opener: char, closer: char) {
    (closer == '}' && opener == '{') || (closer == ']' && opener == '[')
  }

  /** The end of a structure, given the delimiters that are open. */
  function StackEnd(b: string, i: nat, stack: seq<char>): (end: Option<nat>)
    ensures end.Some? ==> i <= end.value && (stack != [] ==> end.value <= |b|)
    decreases |b| - i
  {
    if stack == [] then Some(i)
    else if i >= |b| then None
    else if b[i] == '"' then
      var end := ScanString(b, i);
      if end.None? then None else StackEnd(b, end.value, stack)
    else if Opens(b[i]) then StackEnd(b, i + 1, stack + [b[i]])
    else if Closes(b[i]) then
      if Matches(stack[|stack| - 1], b[i]) then StackEnd(b, i + 1, stack[..|stack| - 1]) else None
    else StackEnd(b, i + 1, stack)
  }

  function DigitsEnd(b: string, i: nat): (end: nat)
    ensures i <= end && (i <= |b| ==> end <= |b|)
    decreases |b| - i
  {
    if i < |b| && IsDigit(b[i]) then DigitsEnd(b, i + 1) else i
  }

  predicate AtChar(b: string, i: nat, cs: string) {
    i < |b| && b[i] in cs
  }

  /** Past an optional fraction; None when a point has no digits behind it. */
  function FractionEnd(b: string, i: nat): Option<nat> {
    if !AtChar(b, i, ".") then Some(i)
    else
      var end := DigitsEnd(b, i + 1);
      if end == i + 1 then None else Some(end)
  }

  function ExponentEnd(b: string, i: nat): Option<nat> {
    if !AtChar(b, i, "eE") then Some(i)
    else
      var start := if AtChar(b, i + 1, "+-") then i + 2 else i + 1;
      var end := DigitsEnd(b, start);
      if end == start then None else Some(end)
  }

  function ScanNumber(b: string, i: nat): Option<nat> {
    var start := if AtChar(b, i, "-") then i + 1 else i;
    var whole := DigitsEnd(b, start);
    var fraction := FractionEnd(b, whole);
    if fraction.None? then None
    else
      var end := ExponentEnd(b, fraction.value);
      if end.None? || whole == start then None else end
  }

  function MatchLiteral(b: string, i: nat, literal: string): Option<nat> {
    if i + |literal| <= |b| && b[i..i + |literal|] == literal then Some(i + |literal|) else None
  }

  function ScanValue(b: string, i: nat): Option<nat> {
    if i >= |b| then None
    else if b[i] == '"' then ScanString(b, i)
    else if Opens(b[i]) then StackEnd(b, i + 1, [b[i]])
    else if b[i] == 't' then MatchLiteral(b, i, "true")
    else if b[i] == 'f' then MatchLiteral(b, i, "false")
    else if b[i] == 'n' then MatchLiteral(b, i, "null")
    else ScanNumber(b, i)
  }

  lemma ScanAdvances(b: string, i: nat)
    ensures ScanValue(b, i).Some? ==> i < ScanValue(b, i).value <= |b|
  {
  }

  datatype Token = Token(key: string, value: string)

  /** One member at index i and where the scan goes on after it. */
  datatype Scanned = Scanned(token: Token, next: nat)

  function ScanMember(b: string, i: nat): (m: Option<Scanned>)
    ensures m.Some? ==> i < m.value.next
  {
    var keyEnd := ScanString(b, i);
    if keyEnd.None? then None
    else
      var colon := SkipSpace(b, keyEnd.value);
      if !AtChar(b, colon, ":") then None
      else
        var start := SkipSpace(b, colon + 1);
        var end := ScanValue(b, start);
        ScanAdvances(b, start);
        if end.None? then None
        else Some(Scanned(Token(b[i..keyEnd.value], b[start..end.value]), SkipSpace(b, end.value)))
  }

  function ScanMembers(b: string, i: nat): Option<seq<Token>>
    decreases |b| - i
  {
    var m := ScanMember(b, i);
    if m.None? then None
    else if AtChar(b, m.value.next, "}") then Some([m.value.token])
    else if AtChar(b, m.value.next, ",") then
      var rest := ScanMembers(b, SkipSpace(b, m.value.next + 1));
      if rest.None? then None else Some([m.value.token] + rest.value)
    else None
  }

  /**
   The members of a raw object, in order; None when it is malformed. The first byte is taken to be the opening brace.
   */
  function SplitMembers(raw: string): Option<seq<Token>> {
    var b := TrimSpace(raw);
    var i := SkipSpace(b, 1);
    if AtChar(b, i, "}") then Some([]) else ScanMembers(b, i)
  }
}

/** The scanners as the program runs them: an index moving over the bytes. */
module JsonScanner {
  import opened Basics
  import opened JsonScanSteps

  method SkipJSONWhitespace(b: string, i: nat) returns (j: nat)
    ensures j == SkipSpace(b, i)
  {
    j := i;
    while j < |b| && IsJsonSpace(b[j])
      invariant i <= j && SkipSpace(b, i) == SkipSpace(b, j)
    {
      j := j + 1;
    }
  }

  method ScanJSONString(b: string, start: nat) returns (end: Option<nat>)
    ensures end == ScanString(b, start)
  {
    if start >= |b| || b[start] != '"' { return None; }
    var i := start + 1;
    while i < |b|
      invariant StringEnd(b, i) == StringEnd(b, start + 1)
      decreases |b| - i
    {
      if b[i] == '"' {
        return Some(i + 1);
      } else if b[i] == '\\' {
        i := i + 1;
        if i >= |b| { return None; }
        if b[i] == 'u' {
          if i + 4 >= |b| { return None; }
          i := i + 5;
        } else {
          i := i + 1;
        }
      } else {
        i := i + 1;
      }
    }
    return None;
  }

  method ScanDigits(b: string, i: nat) returns (end: nat)
    ensures end == DigitsEnd(b, i)
  {
    end := i;
    while end < |b| && IsDigit(b[end])
      invariant i <= end && DigitsEnd(b, i) == DigitsEnd(b, end)
    {
      end := end + 1;
    }
  }

  method ScanJSONNumber(b: string, start: nat) returns (end: Option<nat>)
    ensures end == ScanNumber(b, start)
  {
    hide DigitsEnd, AtChar;
    var i := start;
    if AtChar(b, i, "-") { i := i + 1; }
    var whole := ScanDigits(b, i);
    var digits := whole > i;
    i := whole;
    if AtChar(b, i, ".") {
      var fraction := ScanDigits(b, i + 1);
      if fraction == i + 1 { return None; }
      i := fraction;
    }
    if AtChar(b, i, "eE") {
      i := i + 1;
      if AtChar(b, i, "+-") { i := i + 1; }
      var exponent := ScanDigits(b, i);
      if exponent == i { return None; }
      i := exponent;
    }
    if !digits || i == start { return None; }
    return Some(i);
  }

  method ScanStructure(b: string, start: nat) returns (end: Option<nat>)
    requires start < |b| && Opens(b[start])
    ensures end == StackEnd(b, start + 1, [b[start]])
  {
    var stack, i: nat := [b[start]], start + 1;
    while |stack| > 0
      invariant StackEnd(b, i, stack) == StackEnd(b, start + 1, [b[start]])
      decreases if stack == [] then 0 else 1, |b| - i
    {
      if i >= |b| { return None; }
      var c := b[i];
      if c == '"' {
        var next := ScanJSONString(b, i);
        if next.None? { return None; }
        i := next.value;
      } else {
        if Opens(c) {
          stack := stack + [c];
        } else if Closes(c) {
          if !Matches(stack[|stack| - 1], c) { return None; }
          stack := stack[..|stack| - 1];
        }
        i := i + 1;
      }
    }
    return Some(i);
  }

  method ScanJSONValue(b: string, i: nat) returns (end: Option<nat>)
    ensures end == ScanValue(b, i)
  {
    if i >= |b| { return None; }
    match b[i] {
      case '"' => end := ScanJSONString(b, i);
      case '{' => end := ScanStructure(b, i);
      case '[' => end := ScanStructure(b, i);
      case 't' => end := MatchLiteral(b, i, "true");
      case 'f' => end := MatchLiteral(b, i, "false");
      case 'n' => end := MatchLiteral(b, i, "null");
      case _ => end := ScanJSONNumber(b, i);
    }
  }

  function Prepended(first: seq<Token>, rest: Option<seq<Token>>): Option<seq<Token>> {
    if rest.None? then None else Some(first + rest.value)
  }

  lemma NothingPrepended(rest: Option<seq<Token>>)
    ensures Prepended([], rest) == rest
  {
    assert rest.Some? ==> [] + rest.value == rest.value;
  }

  lemma PrependedNext(tokens: seq<Token>, token: Token, b: string, i: nat, next: nat)
    requires ScanMember(b, i) == Some(Scanned(token, next))
    ensures Prepended(tokens, ScanMembers(b, i))
         == if AtChar(b, next, "}") then Some(tokens + [token])
            else if AtChar(b, next, ",") then Prepended(tokens + [token], ScanMembers(b, SkipSpace(b, next + 1)))
            else None
  {
    hide ScanMember;
    var rest := ScanMembers(b, SkipSpace(b, next + 1));
    if rest.Some? {
      assert tokens + ([token] + rest.value) == (tokens + [token]) + rest.value;
    }
  }

  /** One key, its colon and its value, and the place behind them. */
  method ScanMemberAt(b: string, keyStart: nat) returns (member: Option<Scanned>)
    ensures member == ScanMember(b, keyStart)
  {
    hide ScanString, ScanValue, SkipSpace;
    var keyEnd := ScanJSONString(b, keyStart);
    if keyEnd.None? { return None; }
    var i := SkipJSONWhitespace(b, keyEnd.value);
    if !AtChar(b, i, ":") { return None; }
    var start := SkipJSONWhitespace(b, i + 1);
    var end := ScanJSONValue(b, start);
    if end.None? { return None; }
    ScanAdvances(b, start);
    i := SkipJSONWhitespace(b, end.value);
    return Some(Scanned(Token(b[keyStart..keyEnd.value], b[start..end.value]), i));
  }

  method SplitRawJSONObjectMembers(raw: string) returns (members: Option<seq<Token>>)
    ensures members == SplitMembers(raw)
  {
    hide ScanMember, SkipSpace, TrimSpace;
    var b := TrimSpace(raw);
    var i := SkipJSONWhitespace(b, 1);
    var tokens := [];
    if AtChar(b, i, "}") { return Some(tokens); }
    NothingPrepended(ScanMembers(b, i));
    while true
      invariant SplitMembers(raw) == Prepended(tokens, ScanMembers(b, i))
      decreases |b| - i
    {
      var member := ScanMemberAt(b, i);
      if member.None? { return None; }
      PrependedNext(tokens, member.value.token, b, i, member.value.next);
      tokens := tokens + [member.value.token];
      i := member.value.next;
      if AtChar(b, i, "}") { return Some(tokens); }
      if !AtChar(b, i, ",") { return None; }
      i := SkipJSONWhitespace(b, i + 1);
    }
  }
}
