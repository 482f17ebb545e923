/** What every component shares. */
module Basics {

  datatype Option<+T> = None | Some(value: T)

  datatype Result<+T, +E> = Ok(value: T) | Err(error: E)

  function Min(a: int, b: int): int {
    if a <= b then a else b
  }

  function Max(a: int, b: int): int {
    if a <= b then b else a
  }

  predicate IsSpace(c: char) {
    c in " \t\n\r" || c == 11 as char || c == 12 as char
  }

  /** The space characters of two bytes: U+0085 and U+00A0. */
  predicate IsSpacePair(a: char, b: char) {
    a as int == 0xC2 && (b as int == 0x85 || b as int == 0xA0)
  }

  /** Those of three bytes: U+1680, U+2000 to U+200A, U+2028, U+2029, U+202F, U+205F and U+3000. */
  predicate IsSpaceTriple(a: char, b: char, c: char) {
    var x, y, z := a as int, b as int, c as int;
    || (x == 0xE1 && y == 0x9A && z == 0x80)
    || (x == 0xE2 && y == 0x80 && (0x80 <= z <= 0x8A || z == 0xA8 || z == 0xA9 || z == 0xAF))
    || (x == 0xE2 && y == 0x81 && z == 0x9F)
    || (x == 0xE3 && y == 0x80 && z == 0x80)
  }

  /** How many bytes of a space character a text begins with. */
  function SpaceAtStart(b: string): (n: nat)
    ensures n <= |b|
  {
    if b == "" then 0
    else if IsSpace(b[0]) then 1
    else if |b| >= 2 && IsSpacePair(b[0], b[1]) then 2
    else if |b| >= 3 && IsSpaceTriple(b[0], b[1], b[2]) then 3
    else 0
  }

  function SpaceAtEnd(b: string): (n: nat)
    ensures n <= |b|
  {
    var n := |b|;
    if n == 0 then 0
    else if IsSpace(b[n - 1]) then 1
    else if n >= 2 && IsSpacePair(b[n - 2], b[n - 1]) then 2
    else if n >= 3 && IsSpaceTriple(b[n - 3], b[n - 2], b[n - 1]) then 3
    else 0
  }

  function TrimLeft(b: string): string
    decreases |b|
  {
    if SpaceAtStart(b) == 0 then b else TrimLeft(b[SpaceAtStart(b)..])
  }

  function TrimRight(b: string): string
    decreases |b|
  {
    if SpaceAtEnd(b) == 0 then b else TrimRight(b[..|b| - SpaceAtEnd(b)])
  }

  /** The bytes of a text in UTF-8 without the space characters at its ends. */
  function TrimSpace(b: string): string {
    TrimRight(TrimLeft(b))
  }

  predicate Blank(s: string) {
    TrimSpace(s) == ""
  }

  /** Some element of a non-empty set. */
  ghost function Element<T>(s: set<T>): (x: T)
    requires s != {}
    ensures x in s
  {
    var x :| x in s;
    x
  }

  lemma SplitSize<T>(all: set<T>, left: set<T>, taken: set<T>)
    requires left !! taken && left + taken == all
    ensures |all| == |left| + |taken| && taken <= all
  {
  }

  /** The next element of an iteration over a set, in whatever order. */
  method Pick<T(==)>(s: set<T>) returns (x: T)
    requires s != {}
    ensures x in s
  {
    x :| x in s;
  }
}

/** What trimming comes to, for every text. */
module TrimLaws {
  import opened Basics

  /** One space character in UTF-8. */
  predicate IsSpaceChar(c: string) {
    || (|c| == 1 && IsSpace(c[0]))
    || (|c| == 2 && IsSpacePair(c[0], c[1]))
    || (|c| == 3 && IsSpaceTriple(c[0], c[1], c[2]))
  }

  /** Space characters, one after the other. */
  predicate SpacesOnly(s: string) {
    s == "" || exists n :: 1 <= n <= |s| && IsSpaceChar(s[..n]) && SpacesOnly(s[n..])
  }

  lemma StartSays(b: string)
    ensures SpaceAtStart(b) > 0 ==> IsSpaceChar(b[..SpaceAtStart(b)])
    ensures forall n :: 0 <= n <= |b| && IsSpaceChar(b[..n]) ==> SpaceAtStart(b) > 0
  {
  }

  lemma EndSays(b: string)
    ensures SpaceAtEnd(b) > 0 ==> IsSpaceChar(b[|b| - SpaceAtEnd(b)..])
    ensures forall n :: 0 <= n <= |b| && IsSpaceChar(b[n..]) ==> SpaceAtEnd(b) > 0
  {
  }

  lemma {:induction false} SpacesBehind(s: string, c: string)
    requires SpacesOnly(s) && IsSpaceChar(c)
    ensures SpacesOnly(s + c)
  {
    hide IsSpaceChar;
    if s == "" {
      assert s + c == c && c[..|c|] == c && c[|c|..] == "";
      assert c != "" by { CharIsSome(c); }
    } else {
      var n :| 1 <= n <= |s| && IsSpaceChar(s[..n]) && SpacesOnly(s[n..]);
      SpacesBehind(s[n..], c);
      assert (s + c)[..n] == s[..n] && (s + c)[n..] == s[n..] + c;
    }
  }

  lemma CharIsSome(c: string)
    requires IsSpaceChar(c)
    ensures c != ""
  {
  }

  lemma {:induction false} LeftTrimmed(b: string)
    ensures var t := TrimLeft(b);
            && |t| <= |b| && t == b[|b| - |t|..] && SpacesOnly(b[..|b| - |t|])
            && forall n :: 0 <= n <= |t| ==> !IsSpaceChar(t[..n])
    decreases |b|
  {
    hide IsSpaceChar, SpacesOnly;
    StartSays(b);
    var n := SpaceAtStart(b);
    if n > 0 {
      LeftTrimmed(b[n..]);
      var k := |b| - |TrimLeft(b)|;
      assert b[n..][..k - n] == b[n..k];
      SpaceInFront(b, n, k);
    } else {
      NoSpaces(b[..0]);
    }
  }

  lemma NoSpaces(s: string)
    requires s == ""
    ensures SpacesOnly(s)
  {
  }

  lemma SpaceInFront(b: string, n: nat, k: nat)
    requires 0 < n <= k <= |b| && IsSpaceChar(b[..n]) && SpacesOnly(b[n..k])
    ensures SpacesOnly(b[..k])
  {
    hide IsSpaceChar;
    assert b[..k][..n] == b[..n] && b[..k][n..] == b[n..k];
  }

  lemma {:induction false} RightTrimmed(b: string)
    ensures var t := TrimRight(b);
            && t <= b && SpacesOnly(b[|t|..])
            && forall n :: 0 <= n <= |t| ==> !IsSpaceChar(t[n..])
    decreases |b|
  {
    hide IsSpaceChar;
    EndSays(b);
    var m := |b| - SpaceAtEnd(b);
    if m < |b| {
      RightTrimmed(b[..m]);
      var k := |TrimRight(b)|;
      SpacesBehind(b[..m][k..], b[m..]);
      assert b[..m][k..] + b[m..] == b[k..];
    }
  }

  /** Trimming takes space characters off both ends and stops where there is none. */
  lemma TrimSays(b: string)
    ensures var t := TrimSpace(b);
            && (exists l: nat, r: nat ::
                  l <= r <= |b| && t == b[l..r] && SpacesOnly(b[..l]) && SpacesOnly(b[r..]))
            && (forall n :: 0 <= n <= |t| ==> !IsSpaceChar(t[..n]) && !IsSpaceChar(t[n..]))
  {
    hide IsSpaceChar, SpacesOnly;
    LeftTrimmed(b);
    var left := TrimLeft(b);
    RightTrimmed(left);
    var l := |b| - |left|;
    var r := l + |TrimRight(left)|;
    assert b[l..r] == TrimRight(left) && b[r..] == left[|TrimRight(left)|..];
    forall n | 0 <= n <= |TrimRight(left)| ensures !IsSpaceChar(TrimRight(left)[..n]) {
      assert TrimRight(left)[..n] == left[..n];
    }
  }
}
