/**
 Strict validation of JSON string tokens on their raw bytes: UTF-8 as the
 library decodes it, rune by rune, and surrogates escaped in pairs.
 Texts are byte strings, one char a byte.
 */
module StrictStringSteps {
  import opened Basics

  predicate Between(c: char, low: int, high: int) {
    low <= c as int <= high
  }

  /** What the byte after a leading byte may be, as in the table of RFC 3629, section 4. */
  predicate SecondByte(lead: char, c: char) {
    if lead as int == 0xE0 then Between(c, 0xA0, 0xBF)
    else if lead as int == 0xED then Between(c, 0x80, 0x9F)
    else if lead as int == 0xF0 then Between(c, 0x90, 0xBF)
    else if lead as int == 0xF4 then Between(c, 0x80, 0x8F)
    else Between(c, 0x80, 0xBF)
  }

  function LeadSize(lead: char): nat {
    if Between(lead, 0, 0x7F) then 1
    else if Between(lead, 0xC2, 0xDF) then 2
    else if Between(lead, 0xE0, 0xEF) then 3
    else if Between(lead, 0xF0, 0xF4) then 4
    else 0
  }

  /** The number of bytes of the first rune; 0 where the decoder reports an error. */
  function RuneSize(t: string): (n: nat)
    requires t != ""
    ensures n <= |t| && n <= 4
  {
    var n := LeadSize(t[0]);
    if n <= 1 then n
    else if |t| < n || !SecondByte(t[0], t[1]) then 0
    else if n >= 3 && !Between(t[2], 0x80, 0xBF) then 0
    else if n == 4 && !Between(t[3], 0x80, 0xBF) then 0
    else n
  }

  function HexDigit(c: char): Option<nat> {
    if '0' <= c <= '9' then Some(c as int - '0' as int)
    else if 'a' <= c <= 'f' then Some(c as int - 'a' as int + 10)
    else if 'A' <= c <= 'F' then Some(c as int - 'A' as int + 10)
    else None
  }

  /** The value of hexadecimal digits, most significant first. */
  function HexValue(t: string): Option<nat> {
    if t == "" then Some(0)
    else
      var most, last := HexValue(t[..|t| - 1]), HexDigit(t[|t| - 1]);
      if most.None? || last.None? then None else Some(16 * most.value + last.value)
  }

  function ParseHex4(t: string): Option<nat> {
    if |t| < 4 then None else HexValue(t[..4])
  }

  predicate IsHigh(r: nat) {
    0xD800 <= r <= 0xDBFF
  }

  predicate IsLow(r: nat) {
    0xDC00 <= r <= 0xDFFF
  }

  /** An escape of four digits at the start of a text. */
  function HexEscape(t: string): Option<nat> {
    if |t| >= 6 && t[0] == '\\' && t[1] == 'u' then ParseHex4(t[2..]) else None
  }

  /** Whether what stands between the quotes is valid. */
  predicate ValidBody(t: string) {
    if t == "" then true
    else if t[0] != '\\' then
      var n := RuneSize(t);
      n > 0 && ValidBody(t[n..])
    else if |t| < 2 then false
    else if t[1] != 'u' then ValidBody(t[2..])
    else
      var r := HexEscape(t);
      if r.None? || IsLow(r.value) then false
      else if IsHigh(r.value) then
        var low := HexEscape(t[6..]);
        low.Some? && IsLow(low.value) && ValidBody(t[12..])
      else ValidBody(t[6..])
  }

  predicate Quoted(t: string) {
    |t| >= 2 && t[0] == '"' && t[|t| - 1] == '"'
  }

  predicate StrictValid(raw: string) {
    var t := TrimSpace(raw);
    Quoted(t) && ValidBody(t[1..|t| - 1])
  }
}

/** The validator as the program runs it. */
module StrictString {
  import opened Basics
  import opened StrictStringSteps

  method ParseHex(b: string) returns (r: Option<nat>)
    ensures r == ParseHex4(b)
  {
    if |b| < 4 { return None; }
    var value: nat := 0;
    for j := 0 to 4
      invariant HexValue(b[..j]) == Some(value)
    {
      assert b[..j + 1][..j] == b[..j];
      var v := HexDigit(b[j]);
      if v.None? {
        NoHexPrefix(b, j + 1);
        return None;
      }
      value := 16 * value + v.value;
    }
    return Some(value);
  }

  lemma NoHexPrefix(b: string, j: nat)
    requires j <= 4 <= |b| && HexValue(b[..j]).None?
    ensures HexValue(b[..4]).None?
    decreases 4 - j
  {
    if j < 4 {
      assert b[..j + 1][..j] == b[..j];
      NoHexPrefix(b, j + 1);
    }
  }

  /** The escape at an index within the body is the escape at the start of what is left of it. */
  lemma EscapeAt(raw: string, i: nat, end: nat)
    requires i <= end < |raw|
    ensures HexEscape(raw[i..end])
         == if i + 6 <= end && raw[i] == '\\' && raw[i + 1] == 'u' then ParseHex4(raw[i + 2..]) else None
  {
    if i + 6 <= end {
      assert raw[i..end][2..][..4] == raw[i + 2..][..4];
    }
  }

  /** What remains of a body after its first escape with digits, or pair of such escapes. */
  lemma HexStep(t: string)
    requires |t| >= 2 && t[0] == '\\' && t[1] == 'u'
    ensures ValidBody(t) <==>
              var r := HexEscape(t);
              && r.Some? && !IsLow(r.value)
              && if IsHigh(r.value) then HexEscape(t[6..]).Some? && IsLow(HexEscape(t[6..]).value) && ValidBody(t[12..])
                 else ValidBody(t[6..])
  {
    hide HexEscape, RuneSize;
  }

  /** Past the escape with digits at an index of the body; None when it is not valid. */
  method ScanHexEscape(raw: string, start: nat, end: nat) returns (next: Option<nat>)
    requires start + 2 <= end < |raw| && raw[start] == '\\' && raw[start + 1] == 'u'
    ensures next.Some? ==> start < next.value <= end
    ensures ValidBody(raw[start..end]) <==> next.Some? && ValidBody(raw[next.value..end])
  {
    hide HexEscape, ParseHex4, ValidBody, IsHigh, IsLow;
    ghost var t := raw[start..end];
    HexStep(t);
    EscapeAt(raw, start, end);
    var i := start + 1;
    if i + 5 > end { return None; }
    var r := ParseHex(raw[i + 1..]);
    if r.None? { return None; }
    i := i + 5;
    assert raw[i..end] == t[6..];
    EscapeAt(raw, i, end);
    HighNotLow(r.value);
    if IsHigh(r.value) {
      if i + 6 > end || raw[i] != '\\' || raw[i + 1] != 'u' { return None; }
      var low := ParseHex(raw[i + 2..]);
      if low.None? || !IsLow(low.value) { return None; }
      i := i + 6;
      assert raw[i..end] == t[12..];
    } else if IsLow(r.value) {
      return None;
    }
    return Some(i);
  }

  lemma HighNotLow(r: nat)
    ensures !(IsHigh(r) && IsLow(r))
  {
  }

  lemma NothingLeft()
    ensures ValidBody("")
  {
  }

  lemma BodyRune(t: string)
    requires t != "" && t[0] != '\\'
    ensures ValidBody(t) <==> RuneSize(t) > 0 && ValidBody(t[RuneSize(t)..])
  {
    hide RuneSize;
  }

  lemma BodySkips(t: string)
    requires t != "" && t[0] == '\\' && (|t| < 2 || t[1] != 'u')
    ensures ValidBody(t) <==> |t| >= 2 && ValidBody(t[2..])
  {
  }

  method StrictJSONStringValid(input: string) returns (valid: bool)
    ensures valid == StrictValid(input)
  {
    hide TrimSpace, RuneSize, HexEscape, ValidBody;
    var raw := TrimSpace(input);
    if |raw| < 2 || raw[0] != '"' || raw[|raw| - 1] != '"' { return false; }
    var i, end := 1, |raw| - 1;
    while i < end
      invariant 1 <= i <= end
      invariant ValidBody(raw[i..end]) == ValidBody(raw[1..end])
    {
      ghost var t := raw[i..end];
      if raw[i] != '\\' {
        BodyRune(t);
        var size := RuneSize(raw[i..end]);
        if size == 0 { return false; }
        assert raw[i + size..end] == t[size..];
        i := i + size;
      } else if i + 1 >= end {
        BodySkips(t);
        return false;
      } else if raw[i + 1] != 'u' {
        BodySkips(t);
        i := i + 2;
        assert raw[i..end] == t[2..];
      } else {
        var next := ScanHexEscape(raw, i, end);
        if next.None? { return false; }
        i := next.value;
      }
    }
    assert raw[end..end] == "";
    NothingLeft();
    return true;
  }
}
