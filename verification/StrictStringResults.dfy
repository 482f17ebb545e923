/** What strict validation accepts: well-formed UTF-8 with every escaped surrogate in a high-low pair. */
module StrictStringResults {
  import opened Basics
  import opened JsonGrammar
  import opened StrictStringSteps

  // ----- UTF-8 by arithmetic -----

  predicate IsScalar(v: int) {
    0 <= v <= 0x10FFFF && !(0xD800 <= v <= 0xDFFF)
  }

  function Tail(v: int): char
    requires v >= 0
  {
    (0x80 + v % 64) as char
  }

  /** The encoding of a scalar value, as section 3 of RFC 3629 computes it. */
  function Encode(v: int): (t: string)
    requires IsScalar(v)
    ensures t != ""
  {
    if v < 0x80 then [v as char]
    else if v < 0x800 then [(0xC0 + v / 64) as char, Tail(v)]
    else if v < 0x10000 then [(0xE0 + v / 4096) as char, Tail(v / 64), Tail(v)]
    else [(0xF0 + v / 262144) as char, Tail(v / 4096), Tail(v / 64), Tail(v)]
  }

  predicate AllScalars(vs: seq<int>) {
    forall k :: 0 <= k < |vs| ==> IsScalar(vs[k])
  }

  function EncodeAll(vs: seq<int>): string
    requires AllScalars(vs)
  {
    if vs == [] then "" else Encode(vs[0]) + EncodeAll(vs[1..])
  }

  /** A text that the decoder reads to its end without an error. */
  predicate WellFormed(t: string) {
    t != "" ==>
      var n := RuneSize(t);
      n > 0 && WellFormed(t[n..])
  }

  /** The value of the first rune. */
  function RuneValue(t: string): int
    requires t != "" && RuneSize(t) > 0
  {
    var a := t[0] as int;
    match RuneSize(t)
    case 1 => a
    case 2 => (a - 0xC0) * 64 + (t[1] as int - 0x80)
    case 3 => (a - 0xE0) * 4096 + (t[1] as int - 0x80) * 64 + (t[2] as int - 0x80)
    case _ => (a - 0xF0) * 262144 + (t[1] as int - 0x80) * 4096 + (t[2] as int - 0x80) * 64 + (t[3] as int - 0x80)
  }

  /** Six-bit groups can be read back. */
  lemma Groups(a: nat, b: nat, c: nat, d: nat)
    requires b < 64 && c < 64 && d < 64
    ensures var v := a * 262144 + b * 4096 + c * 64 + d;
            v / 262144 == a && v / 4096 == 64 * a + b && v / 64 == 4096 * a + 64 * b + c && v % 64 == d
    ensures (64 * a + b) % 64 == b && (4096 * a + 64 * b + c) % 64 == c
  {
  }

  lemma ShortRune(t: string)
    requires t != "" && 1 <= RuneSize(t) <= 2
    ensures IsScalar(RuneValue(t)) && Encode(RuneValue(t)) == t[..RuneSize(t)]
  {
    if RuneSize(t) == 2 {
      Groups(0, 0, t[0] as int - 0xC0, t[1] as int - 0x80);
    }
  }

  lemma TripleRune(t: string)
    requires t != "" && RuneSize(t) == 3
    ensures IsScalar(RuneValue(t)) && Encode(RuneValue(t)) == t[..3]
  {
    Groups(0, t[0] as int - 0xE0, t[1] as int - 0x80, t[2] as int - 0x80);
    var v := RuneValue(t);
    assert IsScalar(v) && 0x800 <= v < 0x10000;
    assert Encode(v) == [t[0], t[1], t[2]];
  }

  lemma QuadRune(t: string)
    requires t != "" && RuneSize(t) == 4
    ensures IsScalar(RuneValue(t)) && Encode(RuneValue(t)) == t[..4]
  {
    Groups(t[0] as int - 0xF0, t[1] as int - 0x80, t[2] as int - 0x80, t[3] as int - 0x80);
    var v := RuneValue(t);
    assert IsScalar(v) && 0x10000 <= v;
    assert Encode(v) == [t[0], t[1], t[2], t[3]];
  }

  /** The decoder's table accepts only encodings: a rune that is read is the encoding of its value. */
  lemma RuneIsEncoding(t: string)
    requires t != "" && RuneSize(t) > 0
    ensures IsScalar(RuneValue(t)) && Encode(RuneValue(t)) == t[..RuneSize(t)]
  {
    if RuneSize(t) <= 2 {
      ShortRune(t);
    } else if RuneSize(t) == 3 {
      TripleRune(t);
    } else {
      QuadRune(t);
    }
    hide RuneSize, Encode, RuneValue;
  }

  /** The bytes of an encoding, group by group. */
  lemma EncodingBytes(v: int) returns (a: nat, b: nat, c: nat, d: nat)
    requires IsScalar(v)
    ensures b < 64 && c < 64 && d < 64 && v == a * 262144 + b * 4096 + c * 64 + d
    ensures v / 64 % 64 == c && v / 4096 % 64 == b && v / 262144 == a && v % 64 == d
  {
    a, b, c, d := v / 262144, v / 4096 % 64, v / 64 % 64, v % 64;
    assert v / 4096 / 64 == v / 262144 && v / 64 / 64 == v / 4096;
  }

  /** And it accepts all of them. */
  lemma EncodingIsRune(v: int, rest: string)
    requires IsScalar(v)
    ensures var n := |Encode(v)|; RuneSize(Encode(v) + rest) == n
  {
    var a, b, c, d := EncodingBytes(v);
    var t := Encode(v) + rest;
    assert t[..|Encode(v)|] == Encode(v);
    if v < 0x80 {
    } else if v < 0x800 {
      assert v / 64 == c + 64 * b;
    } else if v < 0x10000 {
      assert v / 4096 == b + 64 * a && a == 0;
    } else {
    }
  }

  lemma {:induction false} EncodingIsWellFormed(vs: seq<int>)
    requires AllScalars(vs)
    ensures WellFormed(EncodeAll(vs))
  {
    if vs != [] {
      EncodingIsRune(vs[0], EncodeAll(vs[1..]));
      EncodingIsWellFormed(vs[1..]);
      assert EncodeAll(vs)[|Encode(vs[0])|..] == EncodeAll(vs[1..]);
    }
  }

  lemma EncodeFirst(v: int, rest: seq<int>)
    requires IsScalar(v) && AllScalars(rest)
    ensures AllScalars([v] + rest) && EncodeAll([v] + rest) == Encode(v) + EncodeAll(rest)
  {
    hide Encode, IsScalar;
    assert ([v] + rest)[1..] == rest;
  }

  lemma FirstRune(t: string)
    requires WellFormed(t) && t != ""
    ensures RuneSize(t) > 0 && WellFormed(t[RuneSize(t)..])
  {
    hide RuneSize;
  }

  lemma {:induction false} WellFormedIsEncoding(t: string) returns (vs: seq<int>)
    requires WellFormed(t)
    ensures AllScalars(vs) && EncodeAll(vs) == t
    decreases |t|
  {
    hide RuneSize, RuneValue, Encode, WellFormed, IsScalar, AllScalars;
    if t == "" {
      vs := [];
      NoScalars();
    } else {
      FirstRune(t);
      RuneIsEncoding(t);
      var n := RuneSize(t);
      var rest := WellFormedIsEncoding(t[n..]);
      EncodeFirst(RuneValue(t), rest);
      vs := [RuneValue(t)] + rest;
      assert t[..n] + t[n..] == t;
    }
  }

  lemma NoScalars()
    ensures AllScalars([]) && EncodeAll([]) == ""
  {
  }

  /** Well-formed texts are exactly the encodings of sequences of scalar values. */
  lemma WellFormedExactly(t: string)
    ensures WellFormed(t) <==> exists vs: seq<int> :: AllScalars(vs) && EncodeAll(vs) == t
  {
    if WellFormed(t) {
      var vs := WellFormedIsEncoding(t);
    }
    if vs: seq<int> :| AllScalars(vs) && EncodeAll(vs) == t {
      EncodingIsWellFormed(vs);
    }
  }

  // ----- String tokens of the JSON grammar -----

  function Code(u: Unit): Option<nat> {
    if u.Hex? then ParseHex4(u.digits) else None
  }

  predicate HighUnit(u: Unit) {
    Code(u).Some? && IsHigh(Code(u).value)
  }

  predicate LowUnit(u: Unit) {
    Code(u).Some? && IsLow(Code(u).value)
  }

  /** Every escaped surrogate is half of a high-low pair. */
  predicate Paired(units: seq<Unit>) {
    && (forall k :: 0 <= k < |units| && HighUnit(units[k]) ==> k + 1 < |units| && LowUnit(units[k + 1]))
    && (forall k :: 0 <= k < |units| && LowUnit(units[k]) ==> k > 0 && HighUnit(units[k - 1]))
  }

  /** The first units are single bytes as long as the rune that starts there lasts. */
  lemma {:induction false} RuneIsPlain(units: seq<Unit>, n: nat)
    requires ValidUnits(units) && units != [] && units[0].Plain? && n <= RuneSize(PrintUnits(units))
    ensures n <= |units| && (forall k :: 0 <= k < n ==> units[k].Plain?)
    ensures PrintUnits(units[n..]) == PrintUnits(units)[n..]
    decreases n
  {
    var t := PrintUnits(units);
    if n == 0 {
      assert units[0..] == units;
    } else {
      RuneIsPlain(units, n - 1);
      var rest := units[n - 1..];
      assert t[n - 1..] == PrintUnits(rest);
      hide PrintUnits;
      UnitsStart(rest);
      assert PrintUnits(rest)[0] == t[n - 1];
      if n > 1 { TailByte(t, n - 1); }
      assert rest[0].Plain?;
      assert units[n..] == rest[1..];
      PlainStep(rest);
    }
  }

  lemma TailByte(t: string, k: nat)
    requires t != "" && 0 < k < RuneSize(t)
    ensures k < |t| && t[k] as int >= 0x80
  {
  }

  lemma UnitsStart(units: seq<Unit>)
    requires ValidUnits(units)
    ensures PrintUnits(units) != "" ==> units != [] && (units[0].Plain? <==> PrintUnits(units)[0] != '\\')
    ensures units != [] ==> PrintUnits(units) != ""
  {
  }

  lemma PlainStep(units: seq<Unit>)
    requires units != [] && units[0].Plain?
    ensures PrintUnits(units[1..]) == PrintUnits(units)[1..]
  {
    assert PrintUnits(units) == units[0].Print() + PrintUnits(units[1..]);
  }

  lemma AsciiStep(t: string)
    requires t != "" && t[0] as int < 0x80
    ensures WellFormed(t) <==> WellFormed(t[1..])
  {
  }

  /** Dropping leading ASCII does not change well-formedness. */
  lemma {:induction false} AsciiSteps(t: string, n: nat)
    requires n <= |t| && forall k :: 0 <= k < n ==> t[k] as int < 0x80
    ensures WellFormed(t) <==> WellFormed(t[n..])
  {
    if n > 0 {
      AsciiStep(t);
      AsciiSteps(t[1..], n - 1);
      assert t[1..][n - 1..] == t[n..];
    } else {
      assert t[0..] == t;
    }
  }

  lemma PairedRest(units: seq<Unit>, n: nat)
    requires n <= |units| && forall k :: 0 <= k < n ==> !HighUnit(units[k]) && !LowUnit(units[k])
    ensures Paired(units) <==> Paired(units[n..])
  {
    var rest := units[n..];
    assert forall k :: 0 <= k < |rest| ==> rest[k] == units[k + n];
    hide HighUnit, LowUnit;
    if Paired(units) {
      forall k | 0 <= k < |rest| && HighUnit(rest[k]) ensures k + 1 < |rest| && LowUnit(rest[k + 1]) {
        assert HighUnit(units[k + n]);
      }
      forall k | 0 <= k < |rest| && LowUnit(rest[k]) ensures k > 0 && HighUnit(rest[k - 1]) {
        assert LowUnit(units[k + n]);
        assert HighUnit(units[k + n - 1]);
      }
    }
    if Paired(rest) {
      forall k | 0 <= k < |units| && HighUnit(units[k]) ensures k + 1 < |units| && LowUnit(units[k + 1]) {
        assert HighUnit(rest[k - n]);
      }
      forall k | 0 <= k < |units| && LowUnit(units[k]) ensures k > 0 && HighUnit(units[k - 1]) {
        assert LowUnit(rest[k - n]);
      }
    }
  }

  lemma PairFirst(units: seq<Unit>)
    requires |units| >= 2 && HighUnit(units[0]) && LowUnit(units[1])
    ensures Paired(units) <==> Paired(units[2..])
  {
    var rest := units[2..];
    assert forall k :: 0 <= k < |rest| ==> rest[k] == units[k + 2];
    assert !(HighUnit(units[1]) || LowUnit(units[0]));
    hide HighUnit, LowUnit;
    if Paired(units) {
      forall k | 0 <= k < |rest| && HighUnit(rest[k]) ensures k + 1 < |rest| && LowUnit(rest[k + 1]) {
        assert HighUnit(units[k + 2]);
      }
      forall k | 0 <= k < |rest| && LowUnit(rest[k]) ensures k > 0 && HighUnit(rest[k - 1]) {
        assert LowUnit(units[k + 2]);
      }
    }
    if Paired(rest) {
      forall k | 0 <= k < |units| && HighUnit(units[k]) ensures k + 1 < |units| && LowUnit(units[k + 1]) {
        if k >= 2 { assert HighUnit(rest[k - 2]); }
      }
      forall k | 0 <= k < |units| && LowUnit(units[k]) ensures k > 0 && HighUnit(units[k - 1]) {
        if k >= 2 { assert LowUnit(rest[k - 2]); }
      }
    }
  }

  /** The escape at the start of printed units is that of the first unit. */
  lemma EscapeOfUnits(units: seq<Unit>)
    requires ValidUnits(units)
    ensures HexEscape(PrintUnits(units)) == if units == [] then None else Code(units[0])
    ensures units != [] && units[0].Hex? ==>
              && |PrintUnits(units)| >= 6 && PrintUnits(units)[0] == '\\' && PrintUnits(units)[1] == 'u'
              && PrintUnits(units[1..]) == PrintUnits(units)[6..] && Code(units[0]).Some?
              && forall k :: 0 <= k < 6 ==> PrintUnits(units)[k] as int < 0x80
  {
    if units != [] {
      var u, t := units[0], PrintUnits(units);
      assert t == u.Print() + PrintUnits(units[1..]);
      if u.Hex? {
        assert t[2..][..4] == u.digits == u.digits[..4];
        FourDigits(u.digits);
        forall k | 0 <= k < 6 ensures t[k] as int < 0x80 {
          assert t[k] == u.Print()[k];
        }
      }
    }
  }

  lemma FourDigits(d: string)
    requires |d| == 4 && forall k :: 0 <= k < 4 ==> IsHex(d[k])
    ensures HexValue(d).Some?
  {
    assert d[..3][..2] == d[..2] && d[..2][..1] == d[..1] && d[..1][..0] == "";
    assert HexValue(d[..1]).Some? && HexValue(d[..2]).Some? && HexValue(d[..3]).Some?;
  }

  /**
   For string tokens: valid exactly when the raw bytes are well-formed UTF-8 and the escaped surrogates are paired.
   */
  lemma {:induction false} BodyExactly(units: seq<Unit>)
    requires ValidUnits(units)
    ensures ValidBody(PrintUnits(units)) <==> WellFormed(PrintUnits(units)) && Paired(units)
    decreases |units|, 1
  {
    var t := PrintUnits(units);
    hide PrintUnits, HexEscape, RuneSize, Paired, IsHigh, IsLow;
    UnitsStart(units);
    if units == [] {
      NoUnits();
    } else if units[0].Plain? {
      var n := RuneSize(t);
      if n > 0 {
        RuneIsPlain(units, n);
        PairedRest(units, n);
        BodyExactly(units[n..]);
      }
    } else if units[0].Escape? {
      EscapeStep(units);
      AsciiSteps(t, 2);
      PairedRest(units, 1);
      BodyExactly(units[1..]);
    } else {
      HexBody(units);
    }
  }

  lemma NoUnits()
    ensures PrintUnits([]) == "" && Paired([])
  {
  }

  lemma EscapeStep(units: seq<Unit>)
    requires ValidUnits(units) && units != [] && units[0].Escape?
    ensures var t := PrintUnits(units);
            |t| >= 2 && t[0] == '\\' && t[1] == units[0].c && t[1] != 'u' && t[1] as int < 0x80
              && PrintUnits(units[1..]) == t[2..]
  {
    var t := PrintUnits(units);
    assert t == units[0].Print() + PrintUnits(units[1..]);
  }

  lemma HexBody(units: seq<Unit>)
    requires ValidUnits(units) && units != [] && units[0].Hex?
    ensures ValidBody(PrintUnits(units)) <==> WellFormed(PrintUnits(units)) && Paired(units)
    decreases |units|, 0
  {
    hide PrintUnits, HexEscape, RuneSize, Paired;
    var t := PrintUnits(units);
    EscapeOfUnits(units);
    EscapeOfUnits(units[1..]);
    AsciiSteps(t, 6);
    hide WellFormed;
    if HighUnit(units[0]) {
      if |units| >= 2 && LowUnit(units[1]) {
        AsciiSteps(t[6..], 6);
        assert units[1..][1..] == units[2..] && t[6..][6..] == t[12..];
        PairFirst(units);
        BodyExactly(units[2..]);
      } else {
        HighAlone(units);
      }
    } else if LowUnit(units[0]) {
      LowAlone(units);
    } else {
      PairedRest(units, 1);
      BodyExactly(units[1..]);
    }
  }

  lemma HighAlone(units: seq<Unit>)
    requires units != [] && HighUnit(units[0]) && !(|units| >= 2 && LowUnit(units[1]))
    ensures !Paired(units)
  {
  }

  lemma LowAlone(units: seq<Unit>)
    requires units != [] && LowUnit(units[0])
    ensures !Paired(units)
  {
  }

  /**
   A string token, with any whitespace around it, is accepted exactly when its raw bytes are well-formed UTF-8
   and every escaped surrogate is half of a high-low pair.
   */
  lemma TokenAcceptedExactly(lead: string, units: seq<Unit>, trail: string)
    requires Space(lead) && ValidUnits(units) && Space(trail)
    ensures StrictValid(lead + (PrintString(units) + trail)) <==> WellFormed(PrintUnits(units)) && Paired(units)
  {
    hide ValidBody, WellFormed, Paired, TrimLeft, TrimRight, PrintUnits;
    var t := PrintString(units);
    TrimmedLeft(lead, t + trail);
    TrimmedRight(t, trail);
    assert t[1..|t| - 1] == PrintUnits(units);
    BodyExactly(units);
  }

  // ----- Any text at all -----

  /**
   The pieces of a body that is accepted: runes, escaped bytes that are skipped, digits that are no surrogate, and
   pairs.
   */
  datatype Piece = Rune(v: int) | Skipped(c: char) | Digits4(digits: string) | Surrogates(high: string, low: string) {
    predicate Valid() {
      match this
      case Rune(v) => IsScalar(v) && v != '\\' as int
      case Skipped(c) => c != 'u'
      case Digits4(d) => |d| == 4 && HexValue(d).Some? && !IsHigh(HexValue(d).value) && !IsLow(HexValue(d).value)
      case Surrogates(h, l) =>
        |h| == |l| == 4 && HexValue(h).Some? && IsHigh(HexValue(h).value) && HexValue(l).Some?
          && IsLow(HexValue(l).value)
    }

    function Print(): string
      requires Valid()
    {
      match this
      case Rune(v) => Encode(v)
      case Skipped(c) => ['\\', c]
      case Digits4(d) => ['\\', 'u'] + d
      case Surrogates(h, l) => ['\\', 'u'] + h + ['\\', 'u'] + l
    }
  }

  predicate ValidPieces(ps: seq<Piece>) {
    forall k :: 0 <= k < |ps| ==> ps[k].Valid()
  }

  function PrintPieces(ps: seq<Piece>): string
    requires ValidPieces(ps)
  {
    if ps == [] then "" else ps[0].Print() + PrintPieces(ps[1..])
  }

  lemma EncodingStart(v: int)
    requires IsScalar(v) && v != '\\' as int
    ensures Encode(v)[0] != '\\'
  {
  }

  lemma RuneStep(v: int, rest: string)
    requires IsScalar(v) && v != '\\' as int
    ensures ValidBody(Encode(v) + rest) <==> ValidBody(rest)
  {
    EncodingStart(v);
    EncodingIsRune(v, rest);
    hide RuneSize, Encode, HexEscape;
    var t := Encode(v) + rest;
    assert t[|Encode(v)|..] == rest;
  }

  lemma DigitsStep(digits: string, rest: string)
    requires Digits4(digits).Valid()
    ensures ValidBody(EscapeText(digits) + rest) <==> ValidBody(rest)
  {
    EscapeParts(digits, rest);
    hide HexEscape, RuneSize, HexValue, EscapeText;
  }

  lemma PairStep(high: string, low: string, rest: string)
    requires Surrogates(high, low).Valid()
    ensures ValidBody(EscapeText(high) + (EscapeText(low) + rest)) <==> ValidBody(rest)
  {
    var t := EscapeText(high) + (EscapeText(low) + rest);
    EscapeParts(high, EscapeText(low) + rest);
    EscapeParts(low, rest);
    HighIsNotLow(HexValue(high).value);
    hide HexEscape, RuneSize, HexValue, EscapeText;
    assert t[12..] == t[6..][6..];
  }

  /** A valid piece at the start is accepted and leaves the rest to be judged. */
  lemma PieceStep(p: Piece, rest: string)
    requires p.Valid()
    ensures ValidBody(p.Print() + rest) <==> ValidBody(rest)
  {
    hide RuneSize, Encode, HexValue, HexEscape;
    match p {
      case Rune(v) => RuneStep(v, rest);
      case Skipped(c) => assert (p.Print() + rest)[2..] == rest;
      case Digits4(d) =>
        hide ValidBody;
        DigitsStep(d, rest);
      case Surrogates(h, l) =>
        hide ValidBody;
        assert p.Print() + rest == EscapeText(h) + (EscapeText(l) + rest);
        PairStep(h, l, rest);
    }
  }

  function EscapeText(digits: string): string {
    ['\\', 'u'] + digits
  }

  lemma EscapeParts(digits: string, rest: string)
    requires |digits| == 4
    ensures var t := EscapeText(digits) + rest;
            |t| >= 6 && t[0] == '\\' && t[1] == 'u' && t[6..] == rest && HexEscape(t) == HexValue(digits)
  {
    hide HexValue;
    var t := EscapeText(digits) + rest;
    assert t[2..] == digits + rest && (digits + rest)[..4] == digits;
  }

  lemma HighIsNotLow(r: nat)
    ensures IsHigh(r) ==> !IsLow(r)
  {
  }

  lemma {:induction false} PiecesAccepted(ps: seq<Piece>)
    requires ValidPieces(ps)
    ensures ValidBody(PrintPieces(ps))
  {
    if ps != [] {
      PiecesAccepted(ps[1..]);
      PieceStep(ps[0], PrintPieces(ps[1..]));
      hide ValidBody;
    }
  }

  /** The first piece of an accepted body. */
  lemma FirstPiece(t: string) returns (p: Piece)
    requires t != "" && ValidBody(t)
    ensures p.Valid() && p.Print() <= t && p.Print() != ""
  {
    hide RuneSize, Encode, HexValue;
    if t[0] != '\\' {
      RuneIsEncoding(t);
      p := Rune(RuneValue(t));
      StartOf(t);
    } else if t[1] != 'u' {
      p := Skipped(t[1]);
    } else {
      var r := HexEscape(t);
      if IsHigh(r.value) {
        p := Surrogates(t[2..6], t[8..12]);
        assert t[2..][..4] == t[2..6] && t[6..][2..][..4] == t[8..12];
      } else {
        p := Digits4(t[2..6]);
        assert t[2..][..4] == t[2..6];
      }
    }
  }

  lemma StartOf(t: string)
    requires t != "" && t[0] != '\\' && RuneSize(t) > 0
    ensures RuneValue(t) != '\\' as int
  {
    RuneIsEncoding(t);
  }

  lemma {:induction false} AcceptedPieces(t: string) returns (ps: seq<Piece>)
    requires ValidBody(t)
    ensures ValidPieces(ps) && PrintPieces(ps) == t
    decreases |t|
  {
    if t == "" {
      ps := [];
    } else {
      var p := FirstPiece(t);
      var rest := t[|p.Print()|..];
      assert t == p.Print() + rest;
      PieceStep(p, rest);
      var more := AcceptedPieces(rest);
      ps := [p] + more;
      assert ps[1..] == more;
    }
  }

  /** Whatever the input: it is accepted exactly when, trimmed, it is a quoted list of valid pieces. */
  lemma AcceptedExactly(raw: string)
    ensures StrictValid(raw) <==>
              exists ps: seq<Piece> :: ValidPieces(ps) && TrimSpace(raw) == ['"'] + PrintPieces(ps) + ['"']
  {
    hide ValidBody, TrimSpace, PrintPieces;
    var t := TrimSpace(raw);
    if StrictValid(raw) {
      var ps := AcceptedPieces(t[1..|t| - 1]);
      assert t == ['"'] + PrintPieces(ps) + ['"'];
    }
    if ps: seq<Piece> :| ValidPieces(ps) && t == ['"'] + PrintPieces(ps) + ['"'] {
      assert t[1..|t| - 1] == PrintPieces(ps);
      PiecesAccepted(ps);
    }
  }
}
