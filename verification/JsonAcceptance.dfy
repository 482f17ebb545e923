/**
 What the splitter accepts, whether it is JSON or not: a grammar on the bytes
 from one index to another, and the proof that the scan follows it exactly.
 Strings may hold any escapes, and structures any bytes between delimiters that
 match, as a later decoder looks at the tokens.
 */
module JsonAcceptance {
  import opened Basics
  import opened JsonScanSteps

  // ----- Strings -----

  /** The bytes from i to e are plain ones, escapes of one byte, and escapes with four bytes behind a u. */
  predicate UnitsAt(b: string, i: nat, e: nat)
    requires i <= e <= |b|
    decreases e - i
  {
    if i == e then true
    else if b[i] == '"' then false
    else if b[i] != '\\' then UnitsAt(b, i + 1, e)
    else if e - i >= 2 && b[i + 1] != 'u' then UnitsAt(b, i + 2, e)
    else e - i >= 6 && UnitsAt(b, i + 6, e)
  }

  predicate QuotedAt(b: string, i: nat, e: nat) {
    i + 2 <= e <= |b| && b[i] == '"' && b[e - 1] == '"' && UnitsAt(b, i + 1, e - 1)
  }

  lemma {:induction false} StringEndExactly(b: string, i: nat, e: nat)
    ensures StringEnd(b, i) == Some(e) <==> i < e <= |b| && b[e - 1] == '"' && UnitsAt(b, i, e - 1)
    decreases |b| - i
  {
    if i < |b| && b[i] != '"' {
      if b[i] != '\\' {
        StringEndExactly(b, i + 1, e);
      } else if i + 1 < |b| && b[i + 1] != 'u' {
        StringEndExactly(b, i + 2, e);
      } else if i + 5 < |b| {
        StringEndExactly(b, i + 6, e);
      }
    }
  }

  lemma StringExactly(b: string, i: nat, e: nat)
    ensures ScanString(b, i) == Some(e) <==> QuotedAt(b, i, e)
  {
    hide StringEnd, UnitsAt;
    if i < |b| { StringEndExactly(b, i + 1, e); }
  }

  // ----- Structures -----

  /** Between delimiters: strings, structures, and any other bytes. */
  ghost predicate InsideAt(b: string, i: nat, e: nat)
    requires i <= e <= |b|
    decreases e - i, 1
  {
    || i == e
    || (b[i] != '"' && !Opens(b[i]) && !Closes(b[i]) && InsideAt(b, i + 1, e))
    || exists k: nat :: i < k <= e && (QuotedAt(b, i, k) || StructureAt(b, i, k)) && InsideAt(b, k, e)
  }

  ghost predicate StructureAt(b: string, i: nat, e: nat)
    decreases e - i, 0
  {
    i + 2 <= e <= |b| && Opens(b[i]) && Matches(b[i], b[e - 1]) && InsideAt(b, i + 1, e - 1)
  }

  /** What closes all open delimiters, the last one first. */
  ghost predicate ClosingAt(b: string, i: nat, e: nat, stack: seq<char>)
    requires i <= e <= |b|
    decreases |stack|
  {
    if stack == [] then i == e
    else exists k: nat :: i <= k < e && ClosesAt(b, i, k, e, stack)
  }

  ghost predicate ClosesAt(b: string, i: nat, k: nat, e: nat, stack: seq<char>)
    requires i <= k < e <= |b| && stack != []
    decreases |stack|, 0
  {
    InsideAt(b, i, k) && Matches(stack[|stack| - 1], b[k]) && ClosingAt(b, k + 1, e, stack[..|stack| - 1])
  }

  lemma InsideBehind(b: string, i: nat, k: nat, e: nat)
    requires i < k <= e <= |b| && InsideAt(b, k, e)
    requires QuotedAt(b, i, k) || StructureAt(b, i, k)
             || (k == i + 1 && b[i] != '"' && !Opens(b[i]) && !Closes(b[i]))
    ensures InsideAt(b, i, e)
  {
    hide UnitsAt, QuotedAt, StructureAt, Opens, Closes;
  }

  /** More inside, in front of what closes. */
  lemma ClosingBehind(b: string, i: nat, k: nat, e: nat, stack: seq<char>)
    requires i < k <= e <= |b| && stack != [] && ClosingAt(b, k, e, stack)
    requires QuotedAt(b, i, k) || StructureAt(b, i, k)
             || (k == i + 1 && b[i] != '"' && !Opens(b[i]) && !Closes(b[i]))
    ensures ClosingAt(b, i, e, stack)
  {
    hide QuotedAt, StructureAt, Opens, Closes, Matches;
    var m: nat :| k <= m < e && ClosesAt(b, k, m, e, stack);
    InsideBehind(b, i, k, m);
    hide InsideAt;
    assert ClosesAt(b, i, m, e, stack);
  }

  lemma {:induction false} StackSound(b: string, i: nat, stack: seq<char>, e: nat)
    requires i <= |b| && StackEnd(b, i, stack) == Some(e)
    ensures i <= e <= |b| && ClosingAt(b, i, e, stack)
    decreases |b| - i
  {
    hide InsideAt, UnitsAt, StringEnd, ScanString, QuotedAt;
    if stack != [] {
      if b[i] == '"' {
        var k := ScanString(b, i).value;
        StringExactly(b, i, k);
        StackSound(b, k, stack, e);
        ClosingBehind(b, i, k, e, stack);
      } else if Opens(b[i]) {
        StackSound(b, i + 1, stack + [b[i]], e);
        OpenedCloses(b, i, e, stack);
      } else if Closes(b[i]) {
        StackSound(b, i + 1, stack[..|stack| - 1], e);
        assert InsideAt(b, i, i) by { NothingInside(b, i); }
        assert ClosesAt(b, i, i, e, stack);
      } else {
        StackSound(b, i + 1, stack, e);
        ClosingBehind(b, i, i + 1, e, stack);
      }
    }
  }

  lemma NothingInside(b: string, i: nat)
    requires i <= |b|
    ensures InsideAt(b, i, i)
  {
  }

  lemma OpenedCloses(b: string, i: nat, e: nat, stack: seq<char>)
    requires i < e <= |b| && stack != [] && Opens(b[i]) && ClosingAt(b, i + 1, e, stack + [b[i]])
    ensures ClosingAt(b, i, e, stack)
  {
    hide InsideAt, Opens, Matches;
    var pushed := stack + [b[i]];
    assert pushed[..|pushed| - 1] == stack;
    var k: nat :| i + 1 <= k < e && ClosesAt(b, i + 1, k, e, pushed);
    assert StructureAt(b, i, k + 1);
    ClosingBehind(b, i, k + 1, e, stack);
  }

  /** What is inside leaves the stack as it is. */
  lemma {:induction false} InsidePassed(b: string, i: nat, e: nat, stack: seq<char>)
    requires i <= e <= |b| && InsideAt(b, i, e) && stack != []
    ensures StackEnd(b, i, stack) == StackEnd(b, e, stack)
    decreases e - i, 1
  {
    hide UnitsAt, QuotedAt, ScanString, StructureAt;
    if i < e {
      if b[i] != '"' && !Opens(b[i]) && !Closes(b[i]) && InsideAt(b, i + 1, e) {
        InsidePassed(b, i + 1, e, stack);
      } else {
        var k: nat :| i < k <= e && (QuotedAt(b, i, k) || StructureAt(b, i, k)) && InsideAt(b, k, e);
        InsidePassed(b, k, e, stack);
        if QuotedAt(b, i, k) { QuotedPassed(b, i, k, stack); } else { StructurePassed(b, i, k, stack); }
      }
    }
  }

  lemma QuotedPassed(b: string, i: nat, e: nat, stack: seq<char>)
    requires QuotedAt(b, i, e) && stack != []
    ensures i < e <= |b| && StackEnd(b, i, stack) == StackEnd(b, e, stack)
  {
    hide UnitsAt, ScanString;
    StringExactly(b, i, e);
  }

  lemma {:induction false} StructurePassed(b: string, i: nat, e: nat, stack: seq<char>)
    requires StructureAt(b, i, e)
    ensures StackEnd(b, i + 1, stack + [b[i]]) == StackEnd(b, e, stack)
    ensures stack != [] ==> StackEnd(b, i, stack) == StackEnd(b, e, stack)
    decreases e - i, 0
  {
    hide InsideAt, ScanString;
    var pushed := stack + [b[i]];
    InsidePassed(b, i + 1, e - 1, pushed);
    assert pushed[..|pushed| - 1] == stack && pushed[|pushed| - 1] == b[i];
    assert Closes(b[e - 1]) && !Opens(b[e - 1]) && b[e - 1] != '"';
    assert StackEnd(b, e - 1, pushed) == StackEnd(b, e, stack);
  }

  /** A scan from an opening delimiter ends exactly behind the structure it opens. */
  lemma StructureExactly(b: string, i: nat, e: nat)
    requires i < |b| && Opens(b[i])
    ensures StackEnd(b, i + 1, [b[i]]) == Some(e) <==> StructureAt(b, i, e)
  {
    hide InsideAt, Opens, Matches;
    if StackEnd(b, i + 1, [b[i]]) == Some(e) {
      var stack := [b[i]];
      StackSound(b, i + 1, stack, e);
      var k: nat :| i + 1 <= k < e && ClosesAt(b, i + 1, k, e, stack);
      assert stack[..|stack| - 1] == [] && stack[|stack| - 1] == b[i];
      assert ClosingAt(b, k + 1, e, []);
      assert k + 1 == e;
    }
    if StructureAt(b, i, e) {
      StructurePassed(b, i, e, []);
      assert [] + [b[i]] == [b[i]];
    }
  }

  // ----- Numbers -----

  predicate DigitsAt(b: string, i: nat, e: nat) {
    i < e <= |b| && forall k :: i <= k < e ==> IsDigit(b[k])
  }

  predicate FractionAt(b: string, i: nat, e: nat) {
    i == e || (i < |b| && b[i] == '.' && DigitsAt(b, i + 1, e))
  }

  predicate ExponentAt(b: string, i: nat, e: nat) {
    i == e || (AtChar(b, i, "eE") && DigitsAt(b, if AtChar(b, i + 1, "+-") then i + 2 else i + 1, e))
  }

  predicate NumberPartsAt(b: string, i: nat, w: nat, f: nat, e: nat) {
    && DigitsAt(b, if AtChar(b, i, "-") then i + 1 else i, w)
    && w <= f && FractionAt(b, w, f) && f <= e && ExponentAt(b, f, e) && e <= |b|
  }

  /** A number, with as many leading zeros as one likes. */
  ghost predicate NumberAt(b: string, i: nat, e: nat) {
    exists w: nat, f: nat :: NumberPartsAt(b, i, w, f, e)
  }

  /** Behind a value there is a blank, a comma or the closing brace. */
  predicate EndsAt(b: string, e: nat) {
    e < |b| && (IsJsonSpace(b[e]) || b[e] == ',' || b[e] == '}')
  }

  lemma {:induction false} DigitsExactly(b: string, i: nat, e: nat)
    requires i <= |b|
    ensures DigitsEnd(b, i) == e
       <==> (i == e || DigitsAt(b, i, e)) && i <= e <= |b| && (e == |b| || !IsDigit(b[e]))
    decreases |b| - i
  {
    if i < |b| && IsDigit(b[i]) { DigitsExactly(b, i + 1, e); }
  }

  lemma NumberSound(b: string, i: nat, e: nat)
    requires i < |b| && ScanNumber(b, i) == Some(e)
    ensures NumberAt(b, i, e)
  {
    hide DigitsEnd, IsDigit;
    var start := if AtChar(b, i, "-") then i + 1 else i;
    var w := DigitsEnd(b, start);
    DigitsExactly(b, start, w);
    var f := FractionEnd(b, w).value;
    if f != w { DigitsExactly(b, w + 1, f); }
    if e != f { DigitsExactly(b, if AtChar(b, f + 1, "+-") then f + 2 else f + 1, e); }
    assert NumberPartsAt(b, i, w, f, e);
  }

  lemma NumberPassed(b: string, i: nat, e: nat)
    requires i < |b| && NumberAt(b, i, e) && EndsAt(b, e)
    ensures ScanNumber(b, i) == Some(e)
  {
    hide DigitsEnd, FractionEnd, ExponentEnd;
    var w: nat, f: nat :| NumberPartsAt(b, i, w, f, e);
    DigitsExactly(b, if AtChar(b, i, "-") then i + 1 else i, w);
    ExponentPassed(b, f, e);
    FractionPassed(b, w, f);
  }

  lemma ExponentPassed(b: string, f: nat, e: nat)
    requires f <= e && ExponentAt(b, f, e) && EndsAt(b, e)
    ensures ExponentEnd(b, f) == Some(e) && f < |b| && (f == e || b[f] in "eE")
  {
    hide DigitsEnd;
    if e != f { DigitsExactly(b, if AtChar(b, f + 1, "+-") then f + 2 else f + 1, e); }
  }

  lemma FractionPassed(b: string, w: nat, f: nat)
    requires w <= f < |b| && FractionAt(b, w, f) && !IsDigit(b[f]) && b[f] != '.'
    ensures FractionEnd(b, w) == Some(f)
  {
    hide DigitsEnd;
    if f != w { DigitsExactly(b, w + 1, f); }
  }

  // ----- Values and members -----

  predicate WordAt(b: string, i: nat, e: nat) {
    i <= e <= |b| && (b[i..e] == "true" || b[i..e] == "false" || b[i..e] == "null")
  }

  ghost predicate ValueAt(b: string, i: nat, e: nat) {
    QuotedAt(b, i, e) || StructureAt(b, i, e) || WordAt(b, i, e) || (i < |b| && NumberAt(b, i, e))
  }

  lemma ValueSound(b: string, i: nat, e: nat)
    requires ScanValue(b, i) == Some(e)
    ensures i < e <= |b| && ValueAt(b, i, e)
  {
    hide ScanString, StackEnd, ScanNumber, NumberAt, StructureAt, QuotedAt;
    ScanAdvances(b, i);
    if b[i] == '"' {
      StringExactly(b, i, e);
    } else if Opens(b[i]) {
      StructureExactly(b, i, e);
    } else if b[i] != 't' && b[i] != 'f' && b[i] != 'n' {
      NumberSound(b, i, e);
    }
  }

  lemma NumberStarts(b: string, i: nat, e: nat)
    requires i < |b| && NumberAt(b, i, e)
    ensures b[i] == '-' || IsDigit(b[i])
  {
    var w: nat, f: nat :| NumberPartsAt(b, i, w, f, e);
  }

  lemma WordPassed(b: string, i: nat, e: nat)
    requires WordAt(b, i, e)
    ensures ScanValue(b, i) == Some(e)
  {
    hide ScanString, StackEnd, ScanNumber;
    var word := b[i..e];
    assert b[i] == word[0];
  }

  lemma ValuePassed(b: string, i: nat, e: nat)
    requires ValueAt(b, i, e) && EndsAt(b, e)
    ensures ScanValue(b, i) == Some(e)
  {
    hide ScanString, StackEnd, ScanNumber, NumberAt, WordAt, UnitsAt, InsideAt, EndsAt;
    if WordAt(b, i, e) {
      WordPassed(b, i, e);
    } else if QuotedAt(b, i, e) {
      StringExactly(b, i, e);
    } else if StructureAt(b, i, e) {
      StructureExactly(b, i, e);
    } else {
      NumberStarts(b, i, e);
      NumberPassed(b, i, e);
    }
  }

  predicate SpaceAt(b: string, i: nat, e: nat) {
    i <= e <= |b| && forall k :: i <= k < e ==> IsJsonSpace(b[k])
  }

  lemma {:induction false} SkipExactly(b: string, i: nat, e: nat)
    requires i <= |b|
    ensures SkipSpace(b, i) == e <==> SpaceAt(b, i, e) && (e == |b| || !IsJsonSpace(b[e]))
    decreases |b| - i
  {
    if i < |b| && IsJsonSpace(b[i]) { SkipExactly(b, i + 1, e); }
  }

  /** A key up to k, a colon at c, a value from v to w, and blanks between and behind. */
  ghost predicate MemberPartsAt(b: string, i: nat, k: nat, c: nat, v: nat, w: nat, e: nat) {
    && QuotedAt(b, i, k) && SpaceAt(b, k, c) && c < |b| && b[c] == ':' && SpaceAt(b, c + 1, v)
    && v < w <= |b| && ValueAt(b, v, w) && SpaceAt(b, w, e)
  }

  ghost predicate MemberAt(b: string, i: nat, e: nat, token: Token) {
    exists k: nat, c: nat, v: nat, w: nat :: MemberPartsAt(b, i, k, c, v, w, e) && i <= k <= |b|
                                             && token == Token(b[i..k], b[v..w])
  }

  lemma MemberSound(b: string, i: nat, m: Scanned)
    requires ScanMember(b, i) == Some(m)
    ensures i < m.next <= |b| && MemberAt(b, i, m.next, m.token)
    ensures m.next == |b| || !IsJsonSpace(b[m.next])
  {
    hide ScanString, SkipSpace, ScanValue, QuotedAt, ValueAt, IsJsonSpace;
    var k := ScanString(b, i).value;
    var c := SkipSpace(b, k);
    var v := SkipSpace(b, c + 1);
    var w := ScanValue(b, v).value;
    StringExactly(b, i, k);
    SkipExactly(b, k, c);
    SkipExactly(b, c + 1, v);
    ValueSound(b, v, w);
    SkipExactly(b, w, m.next);
    assert MemberPartsAt(b, i, k, c, v, w, m.next);
  }

  lemma ValueIsNoSpace(b: string, i: nat, e: nat)
    requires i < e <= |b| && ValueAt(b, i, e)
    ensures !IsJsonSpace(b[i])
  {
    hide UnitsAt, InsideAt, NumberAt;
    if WordAt(b, i, e) { assert b[i] == b[i..e][0]; }
    if NumberAt(b, i, e) { NumberStarts(b, i, e); }
  }

  lemma MemberPassed(b: string, i: nat, e: nat, token: Token)
    requires MemberAt(b, i, e, token) && (AtChar(b, e, ",") || AtChar(b, e, "}"))
    ensures ScanMember(b, i) == Some(Scanned(token, e))
  {
    hide ScanString, SkipSpace, ScanValue, QuotedAt, ValueAt;
    var k: nat, c: nat, v: nat, w: nat :| MemberPartsAt(b, i, k, c, v, w, e) && i <= k <= |b|
                                          && token == Token(b[i..k], b[v..w]);
    StringExactly(b, i, k);
    SkipExactly(b, k, c);
    ValueIsNoSpace(b, v, w);
    SkipExactly(b, c + 1, v);
    assert EndsAt(b, w);
    ValuePassed(b, v, w);
    SkipExactly(b, w, e);
  }

  // ----- Whole objects -----

  /** Members, commas between them and the closing brace behind the last one; whatever follows is not looked at. */
  ghost predicate MembersAt(b: string, i: nat, tokens: seq<Token>)
    decreases |tokens|
  {
    tokens != [] && exists e: nat, n: nat :: MembersGoOn(b, i, e, n, tokens)
  }

  ghost predicate MembersGoOn(b: string, i: nat, e: nat, n: nat, tokens: seq<Token>)
    requires tokens != []
    decreases |tokens|, 0
  {
    MemberAt(b, i, e, tokens[0])
    && if |tokens| == 1 then AtChar(b, e, "}")
       else AtChar(b, e, ",") && SpaceAt(b, e + 1, n) && MembersAt(b, n, tokens[1..])
  }

  lemma {:induction false} MembersSound(b: string, i: nat, tokens: seq<Token>)
    requires ScanMembers(b, i) == Some(tokens)
    ensures MembersAt(b, i, tokens)
    decreases |b| - i
  {
    hide ScanMember, MemberAt, SkipSpace;
    var m := ScanMember(b, i).value;
    MemberSound(b, i, m);
    if AtChar(b, m.next, "}") {
      assert MembersGoOn(b, i, m.next, m.next, tokens);
    } else {
      var n := SkipSpace(b, m.next + 1);
      SkipExactly(b, m.next + 1, n);
      MembersSound(b, n, tokens[1..]);
      assert MembersGoOn(b, i, m.next, n, tokens);
    }
  }

  lemma MembersStart(b: string, i: nat, tokens: seq<Token>)
    requires MembersAt(b, i, tokens)
    ensures i < |b| && b[i] == '"'
  {
    hide UnitsAt, ValueAt, SpaceAt;
    var e: nat, n: nat :| MembersGoOn(b, i, e, n, tokens);
    var k: nat, c: nat, v: nat, w: nat :| MemberPartsAt(b, i, k, c, v, w, e);
  }

  lemma {:induction false} MembersPassed(b: string, i: nat, tokens: seq<Token>)
    requires MembersAt(b, i, tokens)
    ensures ScanMembers(b, i) == Some(tokens)
    decreases |tokens|
  {
    hide ScanMember, MemberAt, SkipSpace;
    var e: nat, n: nat :| MembersGoOn(b, i, e, n, tokens);
    MemberPassed(b, i, e, tokens[0]);
    assert tokens == [tokens[0]] + tokens[1..];
    if |tokens| == 1 {
      assert tokens == [tokens[0]];
    } else {
      MembersStart(b, n, tokens[1..]);
      SkipExactly(b, e + 1, n);
      MembersPassed(b, n, tokens[1..]);
    }
  }

  /** The tokens of a raw object: behind one byte and any blanks there are its members, or at once its end. */
  ghost predicate TokensAt(b: string, i: nat, tokens: seq<Token>) {
    SpaceAt(b, 1, i) && if tokens == [] then AtChar(b, i, "}") else MembersAt(b, i, tokens)
  }

  /** Every text, JSON or not, is split into exactly the tokens it consists of, and refused when there are none such. */
  lemma SplitExactly(raw: string, tokens: seq<Token>)
    ensures SplitMembers(raw) == Some(tokens) <==> exists i: nat :: TokensAt(TrimSpace(raw), i, tokens)
  {
    hide TrimSpace, ScanMembers, MembersGoOn, SkipSpace;
    var b := TrimSpace(raw);
    var i := SkipSpace(b, 1);
    if SplitMembers(raw) == Some(tokens) {
      if tokens != [] || !AtChar(b, i, "}") { MembersSound(b, i, tokens); MembersStart(b, i, tokens); }
      SkipExactly(b, 1, i);
      assert TokensAt(b, i, tokens);
    }
    if j: nat :| TokensAt(b, j, tokens) {
      if tokens != [] { MembersStart(b, j, tokens); MembersPassed(b, j, tokens); }
      SkipExactly(b, 1, j);
    }
  }
}
