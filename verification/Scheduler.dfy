/**
 Choosing accounts: candidates that may serve a model now, known capability
 before unknown, rotated round-robin per provider and model, the preferred one
 first; and the answer when everyone is cooling down. Times are Unix seconds.
 */
module SchedulerSteps {
  import opened Basics
  import opened Provider

  /** Capabilities are the models marked as supported; a missing cooldown never applies. */
  datatype Candidate = Candidate(
    id: string, kind: Kind, enabled: bool, valid: bool, capabilities: set<string>, known: bool,
        cooldownUntil: map<string, int>)

  /** None stands for any provider. */
  type Wanted = Option<Kind>

  predicate Usable(c: Candidate, kind: Wanted) {
    (kind.Some? ==> c.kind == kind.value) && c.enabled && c.valid
  }

  predicate Until(c: Candidate, scope: string, now: int) {
    scope in c.cooldownUntil && c.cooldownUntil[scope] > now
  }

  predicate Cooling(c: Candidate, model: string, now: int) {
    Until(c, model, now) || Until(c, ANY_MODEL, now)
  }

  predicate Capable(c: Candidate, model: string) {
    c.known && model in c.capabilities
  }

  function KnownTier(cs: seq<Candidate>, kind: Wanted, model: string, now: int): seq<Candidate> {
    if cs == [] then []
    else
      var c := cs[|cs| - 1];
      KnownTier(cs[..|cs| - 1], kind, model, now)
        + if Usable(c, kind) && !Cooling(c, model, now) && Capable(c, model) then [c] else []
  }

  function UnknownTier(cs: seq<Candidate>, kind: Wanted, model: string, now: int): seq<Candidate> {
    if cs == [] then []
    else
      var c := cs[|cs| - 1];
      UnknownTier(cs[..|cs| - 1], kind, model, now) + if Usable(c, kind) && !Cooling(c, model, now) && !c.known then [c]
      else []
  }

  function Eligible(cs: seq<Candidate>, kind: Wanted, model: string, now: int): seq<Candidate> {
    var known := KnownTier(cs, kind, model, now);
    if known != [] then known else UnknownTier(cs, kind, model, now)
  }

  /** The index of the first candidate with an id, or -1. */
  function IndexOf(cs: seq<Candidate>, id: string): (i: int)
    ensures -1 <= i < |cs|
    ensures i >= 0 ==> cs[i].id == id && forall j :: 0 <= j < i ==> cs[j].id != id
    ensures i < 0 ==> forall j :: 0 <= j < |cs| ==> cs[j].id != id
    decreases |cs|
  {
    if cs == [] then -1
    else
      var i := IndexOf(cs[..|cs| - 1], id);
      if i >= 0 then i else if cs[|cs| - 1].id == id then |cs| - 1 else -1
  }

  /** The first n of a rotation, leaving one index out. */
  function Rotated(cs: seq<Candidate>, start: nat, left: int, n: nat): seq<Candidate>
    requires cs != []
  {
    if n == 0 then []
    else
      var index := (start + n - 1) % |cs|;
      Rotated(cs, start, left, n - 1) + if index == left then [] else [cs[index]]
  }

  function Ordered(eligible: seq<Candidate>, start: nat, preferred: string): seq<Candidate>
    requires eligible != []
  {
    var i := IndexOf(eligible, preferred);
    (if i >= 0 then [eligible[i]] else []) + Rotated(eligible, start, i, |eligible|)
  }

  type Cursors = map<string, nat>

  function Cursor(cursors: Cursors, key: string): nat {
    if key in cursors then cursors[key] else 0
  }

  function KindName(kind: Kind): string {
    match kind case XAI => "xai" case Devin => "devin"
  }

  function CursorKey(kind: Wanted, model: string): string {
    if kind.Some? then KindName(kind.value) + [0 as char] + model else model
  }

  /** A scheduling decision and the cursors it leaves. */
  datatype Decision = Decision(cursors: Cursors, order: Option<seq<Candidate>>)

  function Order(cursors: Cursors, kind: Wanted, model: string, cs: seq<Candidate>, preferred: string,
        now: int): Decision {
    var eligible := Eligible(cs, kind, model, now);
    if eligible == [] then Decision(cursors, None)
    else
      var key := CursorKey(kind, model);
      Decision(cursors[key := Cursor(cursors, key) + 1],
               Some(Ordered(eligible, Cursor(cursors, key) % |eligible|, preferred)))
  }

  // ----- When everyone is cooling down -----

  function Servers(cs: seq<Candidate>, kind: Kind, model: string, known: bool): seq<Candidate> {
    if cs == [] then []
    else
      var c := cs[|cs| - 1];
      Servers(cs[..|cs| - 1], kind, model, known)
        + if Usable(c, Some(kind)) && c.known == known && (known ==> model in c.capabilities) then [c] else []
  }

  function LaterOf(a: Option<int>, b: Option<int>): Option<int> {
    if b.Some? && (a.None? || b.value > a.value) then b else a
  }

  function UntilOf(c: Candidate, scope: string): Option<int> {
    if scope in c.cooldownUntil then Some(c.cooldownUntil[scope]) else None
  }

  /** When a candidate becomes available; None for one that never was unavailable. */
  function AvailableAt(c: Candidate, model: string): Option<int> {
    LaterOf(UntilOf(c, model), UntilOf(c, ANY_MODEL))
  }

  /** The earliest instant, provided every candidate is still to become available. */
  function Earliest(cs: seq<Candidate>, model: string, now: int): (at: Option<int>)
    requires cs != []
    decreases |cs|
  {
    var mine := AvailableAt(cs[|cs| - 1], model);
    if mine.None? || mine.value <= now then None
    else if |cs| == 1 then mine
    else
      var rest := Earliest(cs[..|cs| - 1], model, now);
      if rest.None? then None else Some(Min(rest.value, mine.value))
  }

  /** The instant to retry at, when it is only cooldowns that keep the request from being served. */
  function AllCooling(cs: seq<Candidate>, kind: Kind, model: string, now: int): Option<int> {
    var known := Servers(cs, kind, model, true);
    var eligible := if known != [] then known else Servers(cs, kind, model, false);
    if eligible == [] then None else Earliest(eligible, model, now)
  }
}

/** The scheduler object, proved against the functions above. */
module Scheduler {
  import opened Basics
  import opened Provider
  import opened Steps = SchedulerSteps

  /** The two tiers of available accounts. */
  method Tiers(kind: Wanted, model: string, accounts: seq<Candidate>, now: int) returns (known: seq<Candidate>,
        unknown: seq<Candidate>)
    ensures known == KnownTier(accounts, kind, model, now) && unknown == UnknownTier(accounts, kind, model, now)
  {
    known, unknown := [], [];
    for i := 0 to |accounts|
      invariant known == KnownTier(accounts[..i], kind, model, now)
      invariant unknown == UnknownTier(accounts[..i], kind, model, now)
    {
      assert accounts[..i + 1][..i] == accounts[..i];
      var account := accounts[i];
      if Usable(account, kind) && !Until(account, model, now) && !Until(account, ANY_MODEL, now) {
        if account.known {
          if model in account.capabilities { known := known + [account]; }
        } else {
          unknown := unknown + [account];
        }
      }
    }
    assert accounts[..|accounts|] == accounts;
  }

  class Scheduler {
    var cursors: Cursors

    constructor ()
      ensures cursors == map[]
    {
      cursors := map[];
    }

    method Order(kind: Wanted, model: string, accounts: seq<Candidate>, preferred: string,
          now: int) returns (ordered: Option<seq<Candidate>>)
      modifies this
      ensures Decision(cursors, ordered) == Steps.Order(old(cursors), kind, model, accounts, preferred, now)
    {
      hide KnownTier, UnknownTier, IndexOf, Rotated;
      var known, unknown := Tiers(kind, model, accounts, now);
      var eligible := known;
      if |eligible| == 0 { eligible := unknown; }
      if |eligible| == 0 { return None; }
      var preferredIndex := FindPreferred(eligible, preferred);
      var key := CursorKey(kind, model);
      var cursor := Cursor(cursors, key) % |eligible|;
      cursors := cursors[key := Cursor(cursors, key) + 1];
      var result := [];
      if preferredIndex >= 0 { result := [eligible[preferredIndex]]; }
      var rest := Rotate(eligible, cursor, preferredIndex);
      return Some(result + rest);
    }

    method Rotate(eligible: seq<Candidate>, cursor: nat, preferredIndex: int) returns (rest: seq<Candidate>)
      requires |eligible| > 0
      ensures rest == Rotated(eligible, cursor, preferredIndex, |eligible|)
    {
      rest := [];
      for offset := 0 to |eligible|
        invariant rest == Rotated(eligible, cursor, preferredIndex, offset)
      {
        var index := (cursor + offset) % |eligible|;
        if index != preferredIndex { rest := rest + [eligible[index]]; }
      }
    }

    method FindPreferred(eligible: seq<Candidate>, preferred: string) returns (index: int)
      ensures index == IndexOf(eligible, preferred)
    {
      for i := 0 to |eligible|
        invariant forall j :: 0 <= j < i ==> eligible[j].id != preferred
      {
        if eligible[i].id == preferred { return i; }
      }
      return -1;
    }
  }

  method CollectServers(candidates: seq<Candidate>, kind: Kind, model: string) returns (known: seq<Candidate>,
        unknown: seq<Candidate>)
    ensures known == Servers(candidates, kind, model, true) && unknown == Servers(candidates, kind, model, false)
  {
    known, unknown := [], [];
    for i := 0 to |candidates|
      invariant known == Servers(candidates[..i], kind, model, true)
      invariant unknown == Servers(candidates[..i], kind, model, false)
    {
      assert candidates[..i + 1][..i] == candidates[..i];
      var c := candidates[i];
      if Usable(c, Some(kind)) {
        if c.known {
          if model in c.capabilities { known := known + [c]; }
        } else {
          unknown := unknown + [c];
        }
      }
    }
    assert candidates[..|candidates|] == candidates;
  }

  method AllCoolingClassification(candidates: seq<Candidate>, kind: Kind, model: string,
        now: int) returns (retryAfter: Option<int>)
    ensures retryAfter == AllCooling(candidates, kind, model, now)
  {
    var known, unknown := CollectServers(candidates, kind, model);
    var eligible := known;
    if |eligible| == 0 { eligible := unknown; }
    if |eligible| == 0 { return None; }
    hide Servers;
    var earliest: Option<int> := None;
    for i := 0 to |eligible|
      invariant i == 0 ==> earliest == None
      invariant i > 0 ==> earliest.Some? && earliest == Earliest(eligible[..i], model, now)
    {
      assert eligible[..i + 1][..i] == eligible[..i];
      var availableAt := AvailableAt(eligible[i], model);
      if availableAt.None? || availableAt.value <= now {
        NotAllLater(eligible, i, model, now);
        return None;
      }
      if earliest.None? || availableAt.value < earliest.value { earliest := availableAt; }
    }
    assert eligible[..|eligible|] == eligible;
    return earliest;
  }

  lemma {:induction false} NotAllLater(cs: seq<Candidate>, i: nat, model: string, now: int)
    requires i < |cs| && (AvailableAt(cs[i], model).None? || AvailableAt(cs[i], model).value <= now)
    ensures Earliest(cs, model, now) == None
    decreases |cs|
  {
    if i < |cs| - 1 {
      NotAllLater(cs[..|cs| - 1], i, model, now);
    }
  }
}

/** What the order and the 429 answer guarantee. */
module SchedulerLaws {
  import opened Basics
  import opened Provider
  import opened SchedulerSteps

  // ----- The order is a permutation -----

  /** The index met after so many steps of a rotation. */
  function Place(start: nat, offset: nat, n: nat): nat
    requires start < n && offset < n
  {
    if start + offset < n then start + offset else start + offset - n
  }

  lemma ProductBounds(n: nat, q: int)
    ensures q <= 0 ==> n * q <= 0
    ensures q >= 1 ==> n * q >= n
    ensures q >= 2 ==> n * q >= 2 * n
  {
  }

  lemma UniqueRemainder(x: nat, q: nat, r: nat, n: nat)
    requires x == n * q + r && r < n
    ensures x % n == r
  {
    var d := x / n - q;
    assert x == n * (x / n) + x % n;
    assert n * d == n * (x / n) - n * q;
    ProductBounds(n, d);
    ProductBounds(n, -d);
    assert n * -d == -(n * d);
  }

  /** Stepping on from a remainder wraps around at most once. */
  lemma StepModulo(x: nat, q: nat, start: nat, offset: nat, n: nat)
    requires start < n && offset < n && x == n * q + start
    ensures (x + offset) % n == Place(start, offset, n)
  {
    if start + offset < n {
      UniqueRemainder(x + offset, q, start + offset, n);
    } else {
      assert n * (q + 1) == n * q + n;
      UniqueRemainder(x + offset, q + 1, start + offset - n, n);
    }
  }

  lemma PlaceIsModulo(start: nat, offset: nat, n: nat)
    requires start < n && offset < n
    ensures (start + offset) % n == Place(start, offset, n)
  {
    StepModulo(start, 0, start, offset, n);
  }

  /** The indexes in the order in which a rotation lists them. */
  function RotatedIndexes(n: nat, start: nat, left: int, k: nat): seq<nat>
    requires start < n && k <= n
  {
    if k == 0 then []
    else
      var index := Place(start, k - 1, n);
      RotatedIndexes(n, start, left, k - 1) + if index == left then [] else [index]
  }

  predicate InRange(indexes: seq<nat>, n: nat) {
    forall k :: 0 <= k < |indexes| ==> indexes[k] < n
  }

  function Listed(cs: seq<Candidate>, indexes: seq<nat>): seq<Candidate>
    requires InRange(indexes, |cs|)
  {
    seq(|indexes|, k requires 0 <= k < |indexes| => cs[indexes[k]])
  }

  predicate Distinct(indexes: seq<nat>) {
    forall j, k :: 0 <= j < k < |indexes| ==> indexes[j] != indexes[k]
  }

  /** Each index below n exactly once. */
  ghost predicate IsPermutation(indexes: seq<nat>, n: nat) {
    |indexes| == n && InRange(indexes, n) && Distinct(indexes) && forall i: nat :: i < n ==> i in indexes
  }

  lemma {:induction false} RotatedSays(cs: seq<Candidate>, start: nat, left: int, k: nat)
    requires start < |cs| && k <= |cs|
    ensures var ix := RotatedIndexes(|cs|, start, left, k);
            InRange(ix, |cs|) && Rotated(cs, start, left, k) == Listed(cs, ix)
  {
    hide Place, Rotated, InRange, Listed;
    if k == 0 {
      NothingPicked(cs, start, left);
    } else {
      RotatedSays(cs, start, left, k - 1);
      var index := Place(start, k - 1, |cs|);
      var more := if index == left then [] else [index];
      RotatedNext(cs, start, left, k, more);
      PickMore(cs, RotatedIndexes(|cs|, start, left, k - 1), more);
    }
  }

  lemma NothingPicked(cs: seq<Candidate>, start: nat, left: int)
    requires cs != []
    ensures InRange([], |cs|) && Rotated(cs, start, left, 0) == Listed(cs, [])
  {
  }

  lemma RotatedNext(cs: seq<Candidate>, start: nat, left: int, k: nat, more: seq<nat>)
    requires start < |cs| && 0 < k <= |cs|
    requires var index := Place(start, k - 1, |cs|); more == if index == left then [] else [index]
    ensures InRange(more, |cs|) && Rotated(cs, start, left, k) == Rotated(cs, start, left, k - 1) + Listed(cs, more)
  {
    PlaceIsModulo(start, k - 1, |cs|);
  }

  lemma PickMore(cs: seq<Candidate>, ix: seq<nat>, more: seq<nat>)
    requires InRange(ix, |cs|) && InRange(more, |cs|)
    ensures InRange(ix + more, |cs|) && Listed(cs, ix + more) == Listed(cs, ix) + Listed(cs, more)
  {
  }

  /** The offset at which a rotation meets an index. */
  function OffsetOf(start: nat, i: nat, n: nat): (offset: nat)
    requires start < n && i < n
    ensures offset < n && Place(start, offset, n) == i
  {
    if i >= start then i - start else i + n - start
  }

  lemma OneOffset(start: nat, offset: nat, n: nat)
    requires start < n && offset < n
    ensures OffsetOf(start, Place(start, offset, n), n) == offset
  {
  }

  /** A rotation lists, once each, the indexes met in its first k steps. */
  lemma {:induction false} RotatedMeets(n: nat, start: nat, left: int, k: nat)
    requires start < n && k <= n
    ensures var ix := RotatedIndexes(n, start, left, k);
            Distinct(ix) && forall i: nat :: i < n ==> (i in ix <==> i != left && OffsetOf(start, i, n) < k)
  {
    if k > 0 {
      RotatedMeets(n, start, left, k - 1);
      OneOffset(start, k - 1, n);
      var index := Place(start, k - 1, n);
      var most := RotatedIndexes(n, start, left, k - 1);
      assert index !in most;
      forall i: nat | i < n && OffsetOf(start, i, n) == k - 1 ensures i == index {}
      hide Place, OffsetOf;
    }
  }

  lemma {:induction false} RotatedLength(n: nat, start: nat, left: int, k: nat)
    requires start < n && k <= n
    ensures |RotatedIndexes(n, start, left, k)| == k - if 0 <= left < n && OffsetOf(start, left, n) < k then 1 else 0
  {
    if k > 0 {
      RotatedLength(n, start, left, k - 1);
      OneOffset(start, k - 1, n);
    }
  }

  /** The indexes of the whole order. */
  function OrderIndexes(eligible: seq<Candidate>, start: nat, preferred: string): seq<nat>
    requires start < |eligible|
  {
    var i := IndexOf(eligible, preferred);
    (if i >= 0 then [i as nat] else []) + RotatedIndexes(|eligible|, start, i, |eligible|)
  }

  lemma OrderMeets(eligible: seq<Candidate>, start: nat, preferred: string)
    requires start < |eligible|
    ensures IsPermutation(OrderIndexes(eligible, start, preferred), |eligible|)
  {
    var p := IndexOf(eligible, preferred);
    hide IndexOf;
    RotationMeets(|eligible|, start, p);
  }

  lemma RotationMeets(n: nat, start: nat, p: int)
    requires start < n && -1 <= p < n
    ensures IsPermutation((if p >= 0 then [p as nat] else []) + RotatedIndexes(n, start, p, n), n)
  {
    RotatedMeets(n, start, p, n);
    RotatedLength(n, start, p, n);
    RotatedInRange(n, start, p, n);
    var rotated := RotatedIndexes(n, start, p, n);
    hide RotatedIndexes, OffsetOf, Place;
    assert forall i: nat :: i < n && i != p ==> i in rotated by {
      forall i: nat | i < n && i != p ensures i in rotated { assert OffsetOf(start, i, n) < n; }
    }
    if p >= 0 {
      var ix := [p as nat] + rotated;
      assert p !in rotated;
      assert forall i: nat :: i < n ==> i == p || i in rotated;
    } else {
      assert [] + rotated == rotated;
    }
  }

  lemma {:induction false} RotatedInRange(n: nat, start: nat, left: int, k: nat)
    requires start < n && k <= n
    ensures InRange(RotatedIndexes(n, start, left, k), n)
  {
    if k > 0 {
      RotatedInRange(n, start, left, k - 1);
    }
  }

  /** The order lists every eligible candidate exactly once, index by index. */
  lemma OrderIsPermutation(eligible: seq<Candidate>, start: nat, preferred: string)
    requires start < |eligible|
    ensures var ix := OrderIndexes(eligible, start, preferred);
            IsPermutation(ix, |eligible|) && Ordered(eligible, start, preferred) == Listed(eligible, ix)
  {
    hide RotatedIndexes, Rotated, IndexOf;
    OrderMeets(eligible, start, preferred);
    RotatedSays(eligible, start, IndexOf(eligible, preferred), |eligible|);
  }

  lemma {:induction false} FirstOf(n: nat, start: nat, k: nat)
    requires start < n && 1 <= k <= n
    ensures |RotatedIndexes(n, start, -1, k)| == k && RotatedIndexes(n, start, -1, k)[0] == start
  {
    if k > 1 {
      FirstOf(n, start, k - 1);
    } else {
      assert RotatedIndexes(n, start, -1, 0) == [];
    }
  }

  ghost predicate HasCandidate(eligible: seq<Candidate>, id: string) {
    exists k :: 0 <= k < |eligible| && eligible[k].id == id
  }

  /** The preferred account comes first when it is eligible, and otherwise the account under the cursor. */
  lemma OrderStarts(eligible: seq<Candidate>, start: nat, preferred: string)
    requires start < |eligible|
    ensures var ordered := Ordered(eligible, start, preferred);
            && |ordered| == |eligible|
            && if HasCandidate(eligible, preferred) then ordered[0].id == preferred else ordered[0] == eligible[start]
  {
    OrderIsPermutation(eligible, start, preferred);
    FirstOf(|eligible|, start, |eligible|);
    hide RotatedIndexes, Rotated;
  }

  // ----- Fairness -----

  /** The cursors after so many calls in a row on the same snapshot. */
  function Repeated(cursors: Cursors, kind: Wanted, model: string, cs: seq<Candidate>, preferred: string, now: int,
        calls: nat): Cursors {
    if calls == 0 then cursors
    else Order(Repeated(cursors, kind, model, cs, preferred, now, calls - 1), kind, model, cs, preferred, now).cursors
  }

  /** The index that the j-th of the calls puts first. */
  function FirstIndex(cursors: Cursors, kind: Wanted, model: string, n: nat, j: nat): nat
    requires n > 0
  {
    (Cursor(cursors, CursorKey(kind, model)) + j) % n
  }

  lemma {:induction false} RepeatedCursor(cursors: Cursors, kind: Wanted, model: string, cs: seq<Candidate>,
        preferred: string, now: int, calls: nat)
    requires Eligible(cs, kind, model, now) != []
    ensures var key := CursorKey(kind, model);
            Cursor(Repeated(cursors, kind, model, cs, preferred, now, calls), key) == Cursor(cursors, key) + calls
  {
    hide Eligible, Ordered;
    if calls > 0 {
      RepeatedCursor(cursors, kind, model, cs, preferred, now, calls - 1);
    }
  }

  lemma SplitModulo(c: nat, j: nat, n: nat)
    requires j < n
    ensures (c + j) % n == Place(c % n, j, n)
  {
    StepModulo(c, c / n, c % n, j, n);
  }

  /** With nobody preferred, n calls in a row on the same n eligible accounts put each of them first exactly once. */
  lemma EachFirstOnce(cursors: Cursors, kind: Wanted, model: string, cs: seq<Candidate>, preferred: string, now: int)
    requires Eligible(cs, kind, model, now) != [] && !HasCandidate(Eligible(cs, kind, model, now), preferred)
    ensures var eligible := Eligible(cs, kind, model, now);
            var n := |eligible|;
            var firsts := seq(n, j requires 0 <= j < n => FirstIndex(cursors, kind, model, n, j));
            && IsPermutation(firsts, n)
            && forall j :: 0 <= j < n ==>
                 var ordered := Order(Repeated(cursors, kind, model, cs, preferred, now, j), kind, model, cs, preferred,
                                      now).order;
                 ordered.Some? && |ordered.value| == n && ordered.value[0] == eligible[firsts[j]]
  {
    hide Eligible, Ordered, Repeated, OffsetOf;
    var eligible := Eligible(cs, kind, model, now);
    var n := |eligible|;
    var c := Cursor(cursors, CursorKey(kind, model));
    var firsts := seq(n, j requires 0 <= j < n => FirstIndex(cursors, kind, model, n, j));
    FirstsPermute(firsts, c, n, cursors, kind, model);
    forall j | 0 <= j < n
      ensures var ordered := Order(Repeated(cursors, kind, model, cs, preferred, now, j), kind, model, cs, preferred,
                                   now).order;
              ordered.Some? && |ordered.value| == n && ordered.value[0] == eligible[firsts[j]]
    {
      RepeatedCursor(cursors, kind, model, cs, preferred, now, j);
      OrderStarts(eligible, (c + j) % n, preferred);
    }
  }

  lemma FirstsPermute(firsts: seq<nat>, c: nat, n: nat, cursors: Cursors, kind: Wanted, model: string)
    requires n > 0 && |firsts| == n && c == Cursor(cursors, CursorKey(kind, model))
    requires forall j :: 0 <= j < n ==> firsts[j] == FirstIndex(cursors, kind, model, n, j)
    ensures IsPermutation(firsts, n)
  {
    forall j | 0 <= j < n ensures firsts[j] == Place(c % n, j, n) && OffsetOf(c % n, firsts[j], n) == j {
      SplitModulo(c, j, n);
      OneOffset(c % n, j, n);
    }
    forall i: nat | i < n ensures i in firsts {
      assert firsts[OffsetOf(c % n, i, n)] == i;
    }
  }

  // ----- The 429 answer -----

  /** An enabled and valid account of the provider that could serve the model but for cooldowns. */
  ghost predicate CouldServe(c: Candidate, kind: Wanted, model: string) {
    && (kind.Some? ==> c.kind == kind.value) && c.enabled && c.valid
    && (c.known ==> model in c.capabilities)
  }

  lemma {:induction false} ServersSay(cs: seq<Candidate>, kind: Kind, model: string, known: bool, c: Candidate)
    ensures c in Servers(cs, kind, model, known) <==> c in cs && CouldServe(c, Some(kind), model) && c.known == known
  {
    if cs != [] {
      ServersSay(cs[..|cs| - 1], kind, model, known, c);
    }
  }

  lemma {:induction false} TiersSay(cs: seq<Candidate>, kind: Wanted, model: string, now: int, c: Candidate)
    ensures c in KnownTier(cs, kind, model, now)
       <==> c in cs && CouldServe(c, kind, model) && c.known && !Cooling(c, model, now)
    ensures c in UnknownTier(cs, kind, model, now)
       <==> c in cs && CouldServe(c, kind, model) && !c.known && !Cooling(c, model, now)
  {
    if cs != [] {
      TiersSay(cs[..|cs| - 1], kind, model, now, c);
    }
  }

  /** And neither its cooldown for the model nor the one for all models lasts beyond now. */
  ghost predicate Serves(c: Candidate, kind: Wanted, model: string, now: int) {
    && CouldServe(c, kind, model)
    && (model in c.cooldownUntil ==> c.cooldownUntil[model] <= now)
    && ("*" in c.cooldownUntil ==> c.cooldownUntil["*"] <= now)
  }

  /** Some candidate can serve now, of known capability or not. */
  ghost predicate SomeoneServes(cs: seq<Candidate>, kind: Wanted, model: string, now: int, known: bool) {
    exists k :: 0 <= k < |cs| && cs[k].known == known && Serves(cs[k], kind, model, now)
  }

  /**
   An order is refused exactly when nobody can serve now. Otherwise it lists each position of the tier once, and the
   tier holds exactly the candidates that can serve now: the known ones when there are any, the unknown ones when
   there are not.
   */
  lemma ScheduledExactly(cursors: Cursors, kind: Wanted, model: string, cs: seq<Candidate>, preferred: string, now: int)
    ensures var ordered := Order(cursors, kind, model, cs, preferred, now).order;
            ordered.None? <==> !SomeoneServes(cs, kind, model, now, true) && !SomeoneServes(cs, kind, model, now, false)
    ensures var ordered := Order(cursors, kind, model, cs, preferred, now).order;
            ordered.Some? ==>
              exists ix :: IsPermutation(ix, |Eligible(cs, kind, model, now)|)
                && ordered.value == Listed(Eligible(cs, kind, model, now), ix)
    ensures forall c :: c in Eligible(cs, kind, model, now) <==>
                          c in cs && Serves(c, kind, model, now) && c.known == SomeoneServes(cs, kind, model, now, true)
  {
    hide KnownTier, UnknownTier, Ordered, IsPermutation, Listed, OrderIndexes, CouldServe;
    forall c
      ensures c in KnownTier(cs, kind, model, now) <==> c in cs && Serves(c, kind, model, now) && c.known
      ensures c in UnknownTier(cs, kind, model, now) <==> c in cs && Serves(c, kind, model, now) && !c.known
    {
      TiersSay(cs, kind, model, now, c);
    }
    TierFilled(KnownTier(cs, kind, model, now), cs, kind, model, now, true);
    TierFilled(UnknownTier(cs, kind, model, now), cs, kind, model, now, false);
    var eligible := Eligible(cs, kind, model, now);
    if eligible != [] {
      OrderIsPermutation(eligible, Cursor(cursors, CursorKey(kind, model)) % |eligible|, preferred);
    }
  }

  lemma TierFilled(tier: seq<Candidate>, cs: seq<Candidate>, kind: Wanted, model: string, now: int, known: bool)
    requires forall c :: c in tier <==> c in cs && Serves(c, kind, model, now) && c.known == known
    ensures tier != [] <==> SomeoneServes(cs, kind, model, now, known)
  {
    hide Serves;
    if tier != [] { assert tier[0] in cs; }
    if SomeoneServes(cs, kind, model, now, known) {
      var k :| 0 <= k < |cs| && cs[k].known == known && Serves(cs[k], kind, model, now);
      assert cs[k] in tier;
    }
  }

  lemma CoolingUntil(c: Candidate, model: string, now: int)
    ensures Cooling(c, model, now) <==> AvailableAt(c, model).Some? && AvailableAt(c, model).value > now
  {
  }

  /** With everyone cooling, the earliest instant is some candidate's, and later than now. */
  lemma {:induction false} EarliestSays(cs: seq<Candidate>, model: string, now: int)
    requires cs != [] && forall k :: 0 <= k < |cs| ==> Cooling(cs[k], model, now)
    ensures var at := Earliest(cs, model, now);
            at.Some? && at.value > now && exists k :: 0 <= k < |cs| && AvailableAt(cs[k], model) == at
    decreases |cs|
  {
    CoolingUntil(cs[|cs| - 1], model, now);
    hide Cooling;
    if |cs| > 1 {
      var most := cs[..|cs| - 1];
      EarliestSays(most, model, now);
      var k :| 0 <= k < |most| && AvailableAt(most[k], model) == Earliest(most, model, now);
      assert AvailableAt(cs[k], model) == Earliest(most, model, now);
    }
  }

  /** When no account can be chosen, all that could serve are cooling. */
  lemma NoneEligible(cs: seq<Candidate>, kind: Kind, model: string, now: int, c: Candidate)
    requires Eligible(cs, Some(kind), model, now) == [] && c in cs && CouldServe(c, Some(kind), model)
    ensures Cooling(c, model, now)
  {
    TiersSay(cs, Some(kind), model, now, c);
    hide KnownTier, UnknownTier, Cooling;
  }

  /** Some account that could serve the model stands in the snapshot. */
  ghost predicate SomeoneCouldServe(cs: seq<Candidate>, kind: Kind, model: string) {
    exists k :: 0 <= k < |cs| && CouldServe(cs[k], Some(kind), model)
  }

  /**
   When the order fails, the answer is a 429 exactly when some account of the provider is enabled, valid and capable
   or of unknown capability; and at the instant it names, the order on the same snapshot succeeds.
   */
  lemma RateLimitedExactly(cursors: Cursors, kind: Kind, model: string, cs: seq<Candidate>, preferred: string, now: int)
    requires Order(cursors, Some(kind), model, cs, preferred, now).order.None?
    ensures AllCooling(cs, kind, model, now).Some? <==> SomeoneCouldServe(cs, kind, model)
    ensures var at := AllCooling(cs, kind, model, now);
            at.Some? ==> at.value > now && Order(cursors, Some(kind), model, cs, preferred, at.value).order.Some?
  {
    hide Eligible, Servers, Earliest, Ordered, AvailableAt, CouldServe, Cooling;
    var known := Servers(cs, kind, model, true);
    var servers := if known != [] then known else Servers(cs, kind, model, false);
    if servers == [] {
      if k :| 0 <= k < |cs| && CouldServe(cs[k], Some(kind), model) {
        ServersSay(cs, kind, model, true, cs[k]);
        ServersSay(cs, kind, model, false, cs[k]);
      }
    } else {
      forall k | 0 <= k < |servers|
        ensures servers[k] in cs && CouldServe(servers[k], Some(kind), model) && Cooling(servers[k], model, now)
      {
        ServersSay(cs, kind, model, known != [], servers[k]);
        NoneEligible(cs, kind, model, now, servers[k]);
      }
      EarliestSays(servers, model, now);
      var k :| 0 <= k < |servers| && AvailableAt(servers[k], model) == Earliest(servers, model, now);
      ServesAt(cs, kind, model, servers[k], Earliest(servers, model, now).value);
    }
  }

  lemma ServesAt(cs: seq<Candidate>, kind: Kind, model: string, c: Candidate, at: int)
    requires c in cs && CouldServe(c, Some(kind), model) && AvailableAt(c, model) == Some(at)
    ensures Eligible(cs, Some(kind), model, at) != [] && SomeoneCouldServe(cs, kind, model)
  {
    CoolingUntil(c, model, at);
    TiersSay(cs, Some(kind), model, at, c);
    hide KnownTier, UnknownTier, Cooling, CouldServe;
  }
}
