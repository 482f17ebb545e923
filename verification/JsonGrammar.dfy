/**
 Splitting inverts printing: the concrete syntax of JSON texts in the grammar of
 RFC 8259, sections 2 to 7, with every choice of insignificant whitespace, and
 the proof that the scanner finds exactly the tokens that were printed.
 */
module JsonGrammar {
  import opened Basics
  import opened JsonScanSteps

  predicate Space(s: string) {
    forall k :: 0 <= k < |s| ==> IsJsonSpace(s[k])
  }

  predicate Digits(s: string) {
    forall k :: 0 <= k < |s| ==> IsDigit(s[k])
  }

  predicate IsHex(c: char) {
    IsDigit(c) || 'a' <= c <= 'f' || 'A' <= c <= 'F'
  }

  /** One unit between the quotes: an unescaped byte, a two-character escape, or four hexadecimal digits. */
  datatype Unit = Plain(c: char) | Escape(c: char) | Hex(digits: string) {
    predicate Valid() {
      match this
      case Plain(c) => c >= ' ' && c != '"' && c != '\\'
      case Escape(c) => c in "\"\\/bfnrt"
      case Hex(digits) => |digits| == 4 && forall k :: 0 <= k < 4 ==> IsHex(digits[k])
    }

    function Print(): string {
      match this
      case Plain(c) => [c]
      case Escape(c) => ['\\', c]
      case Hex(digits) => ['\\', 'u'] + digits
    }
  }

  datatype Exponent = Exponent(mark: char, sign: string, digits: string)

  datatype Numeral = Numeral(minus: bool, whole: string, fraction: Option<string>, exponent: Option<Exponent>) {
    predicate Valid() {
      && Digits(whole) && whole != "" && (|whole| > 1 ==> whole[0] != '0')
      && (fraction.Some? ==> Digits(fraction.value) && fraction.value != "")
      && (exponent.Some? ==> exponent.value.mark in "eE" && exponent.value.sign in ["", "+", "-"]
                             && Digits(exponent.value.digits) && exponent.value.digits != "")
    }

    function PrintFraction(): string {
      if fraction.None? then "" else "." + fraction.value
    }

    function PrintExponent(): string {
      if exponent.None? then "" else [exponent.value.mark] + exponent.value.sign + exponent.value.digits
    }

    function Print(): string {
      (if minus then "-" else "") + whole + PrintFraction() + PrintExponent()
    }
  }

  datatype Value =
    | Word(text: string)
    | Number(numeral: Numeral)
    | Text(units: seq<Unit>)
    | EmptyArray(space: string)
    | Array(items: Items)
    | EmptyObject(space: string)
    | Object(members: Members)

  datatype Items =
    | LastItem(before: string, value: Value, after: string)
    | MoreItems(before: string, value: Value, after: string, rest: Items)

  datatype Member = Member(before: string, key: seq<Unit>, gap: string, lead: string, value: Value, after: string)

  datatype Members = LastMember(member: Member) | MoreMembers(member: Member, rest: Members)

  predicate ValidUnits(units: seq<Unit>) {
    forall k :: 0 <= k < |units| ==> units[k].Valid()
  }

  predicate ValidValue(v: Value) {
    match v
    case Word(text) => text in ["true", "false", "null"]
    case Number(numeral) => numeral.Valid()
    case Text(units) => ValidUnits(units)
    case EmptyArray(space) => Space(space)
    case Array(items) => ValidItems(items)
    case EmptyObject(space) => Space(space)
    case Object(members) => ValidMembers(members)
  }

  predicate ValidItems(items: Items) {
    && Space(items.before) && ValidValue(items.value) && Space(items.after)
    && (items.MoreItems? ==> ValidItems(items.rest))
  }

  predicate ValidMember(m: Member) {
    Space(m.before) && ValidUnits(m.key) && Space(m.gap) && Space(m.lead) && ValidValue(m.value) && Space(m.after)
  }

  predicate ValidMembers(members: Members) {
    ValidMember(members.member) && (members.MoreMembers? ==> ValidMembers(members.rest))
  }

  function PrintUnits(units: seq<Unit>): string {
    if units == [] then "" else units[0].Print() + PrintUnits(units[1..])
  }

  function PrintString(units: seq<Unit>): string {
    "\"" + (PrintUnits(units) + "\"")
  }

  function Bracketed(opener: char, inside: string, closer: char): string {
    [opener] + (inside + [closer])
  }

  function Print(v: Value): string {
    match v
    case Word(text) => text
    case Number(numeral) => numeral.Print()
    case Text(units) => PrintString(units)
    case EmptyArray(space) => Bracketed('[', space, ']')
    case Array(items) => Bracketed('[', PrintItems(items), ']')
    case EmptyObject(space) => Bracketed('{', space, '}')
    case Object(members) => Bracketed('{', PrintMembers(members), '}')
  }

  function PrintItems(items: Items): string {
    items.before + (Print(items.value) + (items.after + if items.LastItem? then "" else "," + PrintItems(items.rest)))
  }

  function PrintMember(m: Member): string {
    m.before + (PrintString(m.key) + (m.gap + (":" + (m.lead + (Print(m.value) + m.after)))))
  }

  function PrintMembers(members: Members): string {
    PrintMember(members.member) + if members.LastMember? then "" else "," + PrintMembers(members.rest)
  }

  function Tokens(members: Members): seq<Token> {
    [Token(PrintString(members.member.key), Print(members.member.value))]
      + if members.LastMember? then [] else Tokens(members.rest)
  }

  // ----- Texts at an index -----

  predicate At(b: string, i: nat, t: string) {
    i + |t| <= |b| && b[i..i + |t|] == t
  }

  lemma AtParts(b: string, i: nat, s: string, t: string)
    ensures At(b, i, s + t) <==> At(b, i, s) && At(b, i + |s|, t)
  {
    if At(b, i, s + t) {
      assert b[i..i + |s|] == (s + t)[..|s|];
      assert b[i + |s|..i + |s| + |t|] == (s + t)[|s|..];
    }
    if At(b, i, s) && At(b, i + |s|, t) {
      assert b[i..i + |s + t|] == b[i..i + |s|] + b[i + |s|..i + |s| + |t|];
    }
  }

  lemma AtIndex(b: string, i: nat, t: string, k: nat)
    requires At(b, i, t) && k < |t|
    ensures i + k < |b| && b[i + k] == t[k]
  {
    assert b[i..i + |t|][k] == t[k];
  }

  // ----- Whitespace, digits, strings, numbers -----

  lemma {:induction false} SpaceSkipped(b: string, i: nat, s: string)
    requires At(b, i, s) && Space(s)
    ensures SkipSpace(b, i) == SkipSpace(b, i + |s|)
    decreases |s|
  {
    if s != "" {
      AtIndex(b, i, s, 0);
      assert s == [s[0]] + s[1..];
      AtParts(b, i, [s[0]], s[1..]);
      SpaceSkipped(b, i + 1, s[1..]);
    }
  }

  lemma {:induction false} DigitsRead(b: string, i: nat, s: string)
    requires At(b, i, s) && Digits(s)
    ensures DigitsEnd(b, i) == DigitsEnd(b, i + |s|)
    decreases |s|
  {
    if s != "" {
      AtIndex(b, i, s, 0);
      assert s == [s[0]] + s[1..];
      AtParts(b, i, [s[0]], s[1..]);
      DigitsRead(b, i + 1, s[1..]);
    }
  }

  lemma UnitRead(b: string, i: nat, u: Unit)
    requires u.Valid() && At(b, i, u.Print()) && i + |u.Print()| < |b|
    ensures StringEnd(b, i) == StringEnd(b, i + |u.Print()|)
  {
    AtIndex(b, i, u.Print(), 0);
    if !u.Plain? {
      AtIndex(b, i, u.Print(), 1);
    }
    hide At;
  }

  lemma {:induction false} UnitsRead(b: string, i: nat, units: seq<Unit>)
    requires ValidUnits(units) && At(b, i, PrintUnits(units) + "\"")
    ensures StringEnd(b, i) == Some(i + |PrintUnits(units)| + 1)
    decreases |units|
  {
    hide At, StringEnd, PrintUnits, Unit.Print, Unit.Valid;
    if units == [] {
      QuoteRead(b, i, units);
    } else {
      UnitsSplit(units);
      var first := units[0].Print();
      var rest := PrintUnits(units[1..]) + "\"";
      AtParts(b, i, first, rest);
      AtBounds(b, i + |first|, rest);
      UnitRead(b, i, units[0]);
      UnitsRead(b, i + |first|, units[1..]);
    }
  }

  lemma QuoteRead(b: string, i: nat, units: seq<Unit>)
    requires units == [] && At(b, i, PrintUnits(units) + "\"")
    ensures PrintUnits(units) == "" && StringEnd(b, i) == Some(i + 1)
  {
    assert PrintUnits(units) + "\"" == "\"";
    AtIndex(b, i, "\"", 0);
    hide At;
  }

  lemma UnitsSplit(units: seq<Unit>)
    requires units != []
    ensures PrintUnits(units) + "\"" == units[0].Print() + (PrintUnits(units[1..]) + "\"")
    ensures |PrintUnits(units)| == |units[0].Print()| + |PrintUnits(units[1..])|
  {
    hide Unit.Print;
  }

  lemma AtBounds(b: string, i: nat, t: string)
    requires At(b, i, t)
    ensures i + |t| <= |b|
  {
  }

  lemma StringRead(b: string, i: nat, units: seq<Unit>)
    requires ValidUnits(units) && At(b, i, PrintString(units))
    ensures ScanString(b, i) == Some(i + |PrintString(units)|)
  {
    AtParts(b, i, "\"", PrintUnits(units) + "\"");
    AtIndex(b, i, "\"", 0);
    UnitsRead(b, i + 1, units);
  }

  /** What may follow a number without being taken for part of it. */
  predicate EndsNumber(b: string, i: nat) {
    i < |b| ==> !IsDigit(b[i]) && b[i] !in ".eE"
  }

  lemma ExponentRead(b: string, i: nat, n: Numeral)
    requires n.Valid() && At(b, i, n.PrintExponent()) && EndsNumber(b, i + |n.PrintExponent()|)
    ensures ExponentEnd(b, i) == Some(i + |n.PrintExponent()|)
  {
    hide At, DigitsEnd;
    if n.exponent.Some? {
      var e := n.exponent.value;
      AtParts(b, i, [e.mark] + e.sign, e.digits);
      AtParts(b, i, [e.mark], e.sign);
      AtIndex(b, i, [e.mark], 0);
      SignRead(b, i + 1, e);
      DigitsRead(b, i + 1 + |e.sign|, e.digits);
      DigitsStop(b, i + |n.PrintExponent()|);
    }
  }

  lemma SignRead(b: string, i: nat, e: Exponent)
    requires At(b, i, e.sign) && At(b, i + |e.sign|, e.digits) && Digits(e.digits) && e.digits != ""
    requires e.sign in ["", "+", "-"]
    ensures (if AtChar(b, i, "+-") then i + 1 else i) == i + |e.sign|
  {
    AtIndex(b, i + |e.sign|, e.digits, 0);
    if e.sign != "" { AtIndex(b, i, e.sign, 0); }
    hide At;
  }

  lemma DigitsStop(b: string, i: nat)
    ensures (i < |b| ==> !IsDigit(b[i])) ==> DigitsEnd(b, i) == i
  {
  }

  lemma FractionRead(b: string, i: nat, n: Numeral)
    requires n.Valid() && At(b, i, n.PrintFraction())
    requires var j := i + |n.PrintFraction()|; j < |b| ==> !IsDigit(b[j]) && b[j] != '.'
    ensures FractionEnd(b, i) == Some(i + |n.PrintFraction()|)
  {
    hide At, DigitsEnd;
    if n.fraction.Some? {
      AtParts(b, i, ".", n.fraction.value);
      AtIndex(b, i, ".", 0);
      DigitsRead(b, i + 1, n.fraction.value);
      DigitsStop(b, i + |n.PrintFraction()|);
    }
  }

  lemma NumberRead(b: string, i: nat, n: Numeral)
    requires n.Valid() && At(b, i, n.Print()) && EndsNumber(b, i + |n.Print()|)
    ensures ScanNumber(b, i) == Some(i + |n.Print()|)
  {
    hide At, DigitsEnd, FractionEnd, ExponentEnd, Numeral.PrintFraction, Numeral.PrintExponent;
    var sign := if n.minus then "-" else "";
    var fraction, exponent := n.PrintFraction(), n.PrintExponent();
    AtParts(b, i, sign + n.whole + fraction, exponent);
    AtParts(b, i, sign + n.whole, fraction);
    AtParts(b, i, sign, n.whole);
    var start := i + |sign|;
    var whole := start + |n.whole|;
    var point := whole + |fraction|;
    AtIndex(b, start, n.whole, 0);
    if n.minus { AtIndex(b, i, "-", 0); }
    DigitsRead(b, start, n.whole);
    TailStarts(b, whole, n);
    DigitsStop(b, whole);
    FractionRead(b, whole, n);
    ExponentRead(b, point, n);
  }

  /** Neither the fraction nor the exponent begins with a digit, and the exponent not with a point. */
  lemma TailStarts(b: string, i: nat, n: Numeral)
    requires At(b, i, n.PrintFraction()) && At(b, i + |n.PrintFraction()|, n.PrintExponent())
    requires n.Valid() && EndsNumber(b, i + |n.PrintFraction()| + |n.PrintExponent()|)
    ensures i < |b| ==> !IsDigit(b[i])
    ensures var j := i + |n.PrintFraction()|; j < |b| ==> !IsDigit(b[j]) && b[j] != '.'
  {
    var j := i + |n.PrintFraction()|;
    if n.exponent.Some? { AtIndex(b, j, n.PrintExponent(), 0); }
    if n.fraction.Some? { AtIndex(b, i, n.PrintFraction(), 0); }
    hide At;
  }

  // ----- The stack scan -----

  /** Bytes that the stack scan passes over one by one. */
  predicate Flat(t: string) {
    forall k :: 0 <= k < |t| ==> t[k] != '"' && !Opens(t[k]) && !Closes(t[k])
  }

  lemma {:induction false} FlatPassed(b: string, i: nat, t: string, stack: seq<char>)
    requires At(b, i, t) && Flat(t) && stack != []
    ensures StackEnd(b, i, stack) == StackEnd(b, i + |t|, stack)
    decreases |t|
  {
    if t != "" {
      AtIndex(b, i, t, 0);
      assert t == [t[0]] + t[1..];
      AtParts(b, i, [t[0]], t[1..]);
      FlatPassed(b, i + 1, t[1..], stack);
    }
  }

  lemma FlatParts(s: string, t: string)
    requires Flat(s) && Flat(t)
    ensures Flat(s + t)
  {
  }

  lemma DigitsAreFlat(s: string)
    requires Digits(s)
    ensures Flat(s)
  {
  }

  lemma NumberIsFlat(n: Numeral)
    requires n.Valid()
    ensures Flat(n.Print()) && n.Print() != "" && (n.Print()[0] == '-' || IsDigit(n.Print()[0]))
  {
    var sign := if n.minus then "-" else "";
    DigitsAreFlat(n.whole);
    if n.fraction.Some? {
      DigitsAreFlat(n.fraction.value);
      FlatParts(".", n.fraction.value);
    }
    if n.exponent.Some? {
      var e := n.exponent.value;
      DigitsAreFlat(e.digits);
      FlatParts([e.mark], e.sign);
      FlatParts([e.mark] + e.sign, e.digits);
    }
    FlatParts(sign, n.whole);
    FlatParts(sign + n.whole, n.PrintFraction());
    FlatParts(sign + n.whole + n.PrintFraction(), n.PrintExponent());
    hide Flat, Numeral.PrintFraction, Numeral.PrintExponent;
  }

  lemma StringPassed(b: string, i: nat, units: seq<Unit>, stack: seq<char>)
    requires ValidUnits(units) && At(b, i, PrintString(units)) && stack != []
    ensures StackEnd(b, i, stack) == StackEnd(b, i + |PrintString(units)|, stack)
  {
    StringRead(b, i, units);
    AtParts(b, i, "\"", PrintUnits(units) + "\"");
    AtIndex(b, i, "\"", 0);
  }

  lemma InsideAt(b: string, i: nat, opener: char, inside: string, closer: char)
    requires At(b, i, Bracketed(opener, inside, closer))
    ensures At(b, i + 1, inside) && i + |inside| + 1 < |b| && b[i] == opener && b[i + 1 + |inside|] == closer
  {
    AtParts(b, i, [opener], inside + [closer]);
    AtParts(b, i + 1, inside, [closer]);
    AtIndex(b, i, [opener], 0);
    AtIndex(b, i + 1 + |inside|, [closer], 0);
  }

  /** A bracketed inside that is passed over brings the scan back to the stack it started from. */
  lemma BracketsPassed(b: string, i: nat, opener: char, inside: string, closer: char, stack: seq<char>)
    requires Opens(opener) && Matches(opener, closer) && At(b, i, Bracketed(opener, inside, closer))
    requires StackEnd(b, i + 1, stack + [opener]) == StackEnd(b, i + 1 + |inside|, stack + [opener])
    ensures var end := i + |Bracketed(opener, inside, closer)|;
            && StackEnd(b, i + 1, stack + [opener]) == StackEnd(b, end, stack)
            && (stack != [] ==> StackEnd(b, i, stack) == StackEnd(b, end, stack))
  {
    InsideAt(b, i, opener, inside, closer);
    assert (stack + [opener])[..|stack|] == stack;
  }

  /** Inside a structure the stack scan consumes exactly one printed value. */
  lemma {:induction false} ValuePassed(b: string, i: nat, v: Value, stack: seq<char>)
    requires ValidValue(v) && At(b, i, Print(v)) && stack != []
    ensures StackEnd(b, i, stack) == StackEnd(b, i + |Print(v)|, stack)
    decreases v, 1
  {
    hide StackEnd, At, PrintItems, PrintMembers, PrintString, Bracketed;
    match v {
      case Word(text) =>
        WordIsFlat(text);
        FlatPassed(b, i, text, stack);
      case Number(numeral) =>
        NumberIsFlat(numeral);
        FlatPassed(b, i, numeral.Print(), stack);
      case Text(units) => StringPassed(b, i, units, stack);
      case _ =>
        InsidePassed(b, i, v, stack);
        BracketsPassed(b, i, Delimiters(v).0, Inside(v), Delimiters(v).1, stack);
    }
  }

  lemma WordIsFlat(text: string)
    requires text in ["true", "false", "null"]
    ensures Flat(text)
  {
  }

  predicate IsStructure(v: Value) {
    v.EmptyArray? || v.Array? || v.EmptyObject? || v.Object?
  }

  function Delimiters(v: Value): (char, char)
    requires IsStructure(v)
  {
    if v.EmptyArray? || v.Array? then ('[', ']') else ('{', '}')
  }

  function Inside(v: Value): string
    requires IsStructure(v)
  {
    match v
    case EmptyArray(space) => space
    case Array(items) => PrintItems(items)
    case EmptyObject(space) => space
    case Object(members) => PrintMembers(members)
  }

  lemma SpaceIsFlat(s: string)
    requires Space(s)
    ensures Flat(s)
  {
  }

  lemma InsidePassed(b: string, i: nat, v: Value, stack: seq<char>)
    requires ValidValue(v) && IsStructure(v) && At(b, i, Print(v))
    ensures Print(v) == Bracketed(Delimiters(v).0, Inside(v), Delimiters(v).1)
    ensures var inner := stack + [Delimiters(v).0];
            StackEnd(b, i + 1, inner) == StackEnd(b, i + 1 + |Inside(v)|, inner)
    decreases v, 0
  {
    hide StackEnd, At, PrintItems, PrintMembers, Bracketed;
    InsideAt(b, i, Delimiters(v).0, Inside(v), Delimiters(v).1);
    var inner := stack + [Delimiters(v).0];
    match v {
      case EmptyArray(space) => SpaceIsFlat(space); FlatPassed(b, i + 1, space, inner);
      case Array(items) => ItemsPassed(b, i + 1, items, inner);
      case EmptyObject(space) => SpaceIsFlat(space); FlatPassed(b, i + 1, space, inner);
      case Object(members) => MembersPassed(b, i + 1, members, inner);
    }
  }

  lemma {:induction false} ItemsPassed(b: string, i: nat, items: Items, stack: seq<char>)
    requires ValidItems(items) && At(b, i, PrintItems(items)) && stack != []
    ensures StackEnd(b, i, stack) == StackEnd(b, i + |PrintItems(items)|, stack)
    decreases items
  {
    hide StackEnd, At, Print;
    var tail := if items.LastItem? then "" else "," + PrintItems(items.rest);
    AtParts(b, i, items.before, Print(items.value) + (items.after + tail));
    var j := i + |items.before|;
    AtParts(b, j, Print(items.value), items.after + tail);
    var k := j + |Print(items.value)|;
    AtParts(b, k, items.after, tail);
    FlatPassed(b, i, items.before, stack);
    ValuePassed(b, j, items.value, stack);
    FlatPassed(b, k, items.after, stack);
    if items.MoreItems? {
      var l := k + |items.after|;
      AtParts(b, l, ",", PrintItems(items.rest));
      FlatPassed(b, l, ",", stack);
      ItemsPassed(b, l + 1, items.rest, stack);
    }
  }

  /** Where the parts of a member stand. */
  datatype Places = Places(key: nat, gap: nat, colon: nat, value: nat, after: nat, end: nat)

  function PlacesOf(i: nat, m: Member): Places {
    var key := i + |m.before|;
    var gap := key + |PrintString(m.key)|;
    var colon := gap + |m.gap|;
    var value := colon + 1 + |m.lead|;
    var after := value + |Print(m.value)|;
    Places(key, gap, colon, value, after, after + |m.after|)
  }

  lemma MemberAt(b: string, i: nat, m: Member)
    requires At(b, i, PrintMember(m))
    ensures var at := PlacesOf(i, m);
            && At(b, i, m.before) && At(b, at.key, PrintString(m.key)) && At(b, at.gap, m.gap) && At(b, at.colon, ":")
            && At(b, at.colon + 1, m.lead) && At(b, at.value, Print(m.value)) && At(b, at.after, m.after)
            && at.end == i + |PrintMember(m)|
  {
    hide At, Print, PrintString;
    var at := PlacesOf(i, m);
    var t5 := Print(m.value) + m.after;
    var t4 := m.lead + t5;
    var t3 := ":" + t4;
    var t2 := m.gap + t3;
    AtParts(b, i, m.before, PrintString(m.key) + t2);
    AtParts(b, at.key, PrintString(m.key), t2);
    AtParts(b, at.gap, m.gap, t3);
    AtParts(b, at.colon, ":", t4);
    AtParts(b, at.colon + 1, m.lead, t5);
    AtParts(b, at.value, Print(m.value), m.after);
  }

  lemma {:induction false} MembersPassed(b: string, i: nat, members: Members, stack: seq<char>)
    requires ValidMembers(members) && At(b, i, PrintMembers(members)) && stack != []
    ensures StackEnd(b, i, stack) == StackEnd(b, i + |PrintMembers(members)|, stack)
    decreases members
  {
    hide StackEnd, At, PrintMember;
    var m := members.member;
    var tail := if members.LastMember? then "" else "," + PrintMembers(members.rest);
    AtParts(b, i, PrintMember(m), tail);
    MemberPassed(b, i, m, stack);
    if members.MoreMembers? {
      var l := i + |PrintMember(m)|;
      AtParts(b, l, ",", PrintMembers(members.rest));
      FlatPassed(b, l, ",", stack);
      MembersPassed(b, l + 1, members.rest, stack);
    }
  }

  lemma {:induction false} MemberPassed(b: string, i: nat, m: Member, stack: seq<char>)
    requires ValidMember(m) && At(b, i, PrintMember(m)) && stack != []
    ensures StackEnd(b, i, stack) == StackEnd(b, i + |PrintMember(m)|, stack)
    decreases m
  {
    hide StackEnd, Print, PrintString, At, PrintMember;
    MemberAt(b, i, m);
    var at := PlacesOf(i, m);
    FlatPassed(b, i, m.before, stack);
    StringPassed(b, at.key, m.key, stack);
    FlatPassed(b, at.gap, m.gap, stack);
    FlatPassed(b, at.colon, ":", stack);
    FlatPassed(b, at.colon + 1, m.lead, stack);
    ValuePassed(b, at.value, m.value, stack);
    FlatPassed(b, at.after, m.after, stack);
  }

  // ----- The split -----

  lemma PrintStarts(v: Value)
    requires ValidValue(v)
    ensures Print(v) != "" && !IsJsonSpace(Print(v)[0])
  {
    if v.Number? { NumberIsFlat(v.numeral); }
    hide Numeral.Print;
  }

  /** Outside any structure too, a scan consumes exactly one value, provided a number is not run on. */
  lemma ValueRead(b: string, i: nat, v: Value)
    requires ValidValue(v) && At(b, i, Print(v)) && EndsNumber(b, i + |Print(v)|)
    ensures ScanValue(b, i) == Some(i + |Print(v)|)
  {
    match v
    case Word(text) => WordRead(b, i, text);
    case Number(numeral) => NumberValueRead(b, i, numeral);
    case Text(units) => TextRead(b, i, units);
    case _ => StructureRead(b, i, v);
    hide At, ScanValue, EndsNumber;
  }

  lemma WordRead(b: string, i: nat, text: string)
    requires text in ["true", "false", "null"] && At(b, i, text)
    ensures ScanValue(b, i) == Some(i + |text|)
  {
    hide StackEnd, ScanString, ScanNumber;
    AtIndex(b, i, text, 0);
  }

  lemma NumberValueRead(b: string, i: nat, n: Numeral)
    requires n.Valid() && At(b, i, n.Print()) && EndsNumber(b, i + |n.Print()|)
    ensures ScanValue(b, i) == Some(i + |n.Print()|)
  {
    NumberIsFlat(n);
    NumberRead(b, i, n);
    AtIndex(b, i, n.Print(), 0);
    hide StackEnd, ScanString, ScanNumber, At, Numeral.Print, Numeral.Valid;
  }

  lemma TextRead(b: string, i: nat, units: seq<Unit>)
    requires ValidUnits(units) && At(b, i, PrintString(units))
    ensures ScanValue(b, i) == Some(i + |PrintString(units)|)
  {
    StringStarts(b, i, units);
    StringRead(b, i, units);
    hide StackEnd, ScanString, ScanNumber, At, PrintString;
  }

  lemma StructureRead(b: string, i: nat, v: Value)
    requires ValidValue(v) && IsStructure(v) && At(b, i, Print(v))
    ensures ScanValue(b, i) == Some(i + |Print(v)|)
  {
    hide StackEnd, ScanString, ScanNumber, At, Print, Bracketed, Inside, ValidValue;
    InsidePassed(b, i, v, []);
    var opener, closer := Delimiters(v).0, Delimiters(v).1;
    InsideAt(b, i, opener, Inside(v), closer);
    BracketsPassed(b, i, opener, Inside(v), closer, []);
    StructureEnds(b, i + 1, opener, i + |Print(v)|);
  }

  lemma StructureEnds(b: string, i: nat, opener: char, end: nat)
    requires StackEnd(b, i, [] + [opener]) == StackEnd(b, end, [])
    ensures StackEnd(b, i, [opener]) == Some(end)
  {
    assert [] + [opener] == [opener];
  }

  /** Skipping a printed space stops at what follows it. */
  lemma SpaceStops(b: string, i: nat, s: string)
    requires At(b, i, s) && Space(s) && i + |s| < |b| && !IsJsonSpace(b[i + |s|])
    ensures SkipSpace(b, i) == i + |s|
  {
    SpaceSkipped(b, i, s);
  }

  /** One printed member, followed by a comma or the closing brace. */
  lemma MemberRead(b: string, i: nat, m: Member)
    requires ValidMember(m) && At(b, i, PrintMember(m)) && AtChar(b, i + |PrintMember(m)|, ",}")
    ensures ScanMember(b, SkipSpace(b, i))
         == Some(Scanned(Token(PrintString(m.key), Print(m.value)), i + |PrintMember(m)|))
  {
    hide ScanString, ScanValue, SkipSpace, Print, PrintString, PrintMember, At;
    MemberAt(b, i, m);
    var at := PlacesOf(i, m);
    StringStarts(b, at.key, m.key);
    SpaceStops(b, i, m.before);
    StringRead(b, at.key, m.key);
    AtIndex(b, at.colon, ":", 0);
    SpaceStops(b, at.gap, m.gap);
    PrintStarts(m.value);
    AtIndex(b, at.value, Print(m.value), 0);
    SpaceStops(b, at.colon + 1, m.lead);
    AfterValue(b, at.after, m.after);
    ValueRead(b, at.value, m.value);
    AtSlice(b, at.key, PrintString(m.key));
    AtSlice(b, at.value, Print(m.value));
  }

  lemma StringStarts(b: string, i: nat, units: seq<Unit>)
    requires At(b, i, PrintString(units))
    ensures i < |b| && b[i] == '"'
  {
    AtIndex(b, i, PrintString(units), 0);
  }

  lemma AtSlice(b: string, i: nat, t: string)
    requires At(b, i, t)
    ensures i + |t| <= |b| && b[i..i + |t|] == t
  {
  }

  /** After a value comes whitespace or a delimiter, neither of which extends a number. */
  lemma AfterValue(b: string, i: nat, s: string)
    requires At(b, i, s) && Space(s) && AtChar(b, i + |s|, ",}")
    ensures EndsNumber(b, i) && SkipSpace(b, i) == i + |s|
  {
    if s != "" { AtIndex(b, i, s, 0); }
    SpaceStops(b, i, s);
  }

  lemma {:induction false} MembersRead(b: string, i: nat, members: Members)
    requires ValidMembers(members) && At(b, i, PrintMembers(members)) && AtChar(b, i + |PrintMembers(members)|, "}")
    ensures ScanMembers(b, SkipSpace(b, i)) == Some(Tokens(members))
    decreases members
  {
    hide ScanMember, SkipSpace, PrintMember, PrintString, Print, At;
    var m := members.member;
    var tail := if members.LastMember? then "" else "," + PrintMembers(members.rest);
    assert PrintMembers(members) == PrintMember(m) + tail;
    AtParts(b, i, PrintMember(m), tail);
    var next := i + |PrintMember(m)|;
    if members.LastMember? {
      MemberRead(b, i, m);
      assert Tokens(members) == [Token(PrintString(m.key), Print(m.value))];
    } else {
      AtParts(b, next, ",", PrintMembers(members.rest));
      AtIndex(b, next, ",", 0);
      MemberRead(b, i, m);
      MembersRead(b, next + 1, members.rest);
    }
  }

  lemma {:induction false} TrimmedLeft(s: string, t: string)
    requires Space(s) && SpaceAtStart(t) == 0
    ensures TrimLeft(s + t) == t
  {
    if s == "" {
      assert s + t == t;
    } else {
      assert (s + t)[1..] == s[1..] + t;
      TrimmedLeft(s[1..], t);
    }
  }

  lemma {:induction false} TrimmedRight(t: string, s: string)
    requires Space(s) && SpaceAtEnd(t) == 0
    ensures TrimRight(t + s) == t
  {
    if s == "" {
      assert t + s == t;
    } else {
      assert (t + s)[..|t + s| - 1] == t + s[..|s| - 1];
      TrimmedRight(t, s[..|s| - 1]);
    }
  }

  /** A printed object with whitespace around it is split into exactly its tokens, in order. */
  lemma SplitInvertsPrint(lead: string, members: Members, trail: string)
    requires Space(lead) && ValidMembers(members) && Space(trail)
    ensures SplitMembers(lead + (Print(Object(members)) + trail)) == Some(Tokens(members))
  {
    hide ScanMembers, SkipSpace, PrintMember, TrimLeft, TrimRight;
    var b := Print(Object(members));
    TrimmedLeft(lead, b + trail);
    TrimmedRight(b, trail);
    assert b[0..|b|] == b;
    InsideAt(b, 0, '{', PrintMembers(members), '}');
    MembersRead(b, 1, members);
    FirstKey(b, 1, members);
  }

  lemma FirstKey(b: string, i: nat, members: Members)
    requires ValidMembers(members) && At(b, i, PrintMembers(members))
    ensures AtChar(b, SkipSpace(b, i), "\"")
  {
    hide SkipSpace, PrintString, Print, PrintMember, At;
    var m := members.member;
    AtParts(b, i, PrintMember(m), if members.LastMember? then "" else "," + PrintMembers(members.rest));
    MemberAt(b, i, m);
    StringStarts(b, i + |m.before|, m.key);
    SpaceStops(b, i, m.before);
  }

  /** An empty object has no members. */
  lemma SplitEmptyObject(lead: string, space: string, trail: string)
    requires Space(lead) && Space(space) && Space(trail)
    ensures SplitMembers(lead + (Print(EmptyObject(space)) + trail)) == Some([])
  {
    hide SkipSpace, TrimLeft, TrimRight;
    var b := Print(EmptyObject(space));
    TrimmedLeft(lead, b + trail);
    TrimmedRight(b, trail);
    assert b[0..|b|] == b;
    InsideAt(b, 0, '{', space, '}');
    SpaceStops(b, 1, space);
  }
}
