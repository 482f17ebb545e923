/**
 The order told on positions of the snapshot: who stands in it, once each and in
 cyclic order behind the preferred account; and when to retry.
 */
module SchedulerMeaning {
  import opened Basics
  import opened Provider
  import opened SchedulerSteps
  import opened SchedulerLaws

  // ----- The tiers are filters -----

  /** The positions of the candidates that can serve now and whose capabilities are known, or not. */
  ghost function Positions(cs: seq<Candidate>, kind: Wanted, model: string, now: int, known: bool): seq<nat> {
    if cs == [] then []
    else
      var last := |cs| - 1;
      Positions(cs[..last], kind, model, now, known)
        + if Serves(cs[last], kind, model, now) && cs[last].known == known then [last] else []
  }

  predicate Increasing(ps: seq<nat>) {
    forall i, j :: 0 <= i < j < |ps| ==> ps[i] < ps[j]
  }

  lemma {:induction false} PositionSays(cs: seq<Candidate>, kind: Wanted, model: string, now: int, known: bool, p: nat)
    ensures p in Positions(cs, kind, model, now, known)
       <==> p < |cs| && Serves(cs[p], kind, model, now) && cs[p].known == known
  {
    hide Serves;
    if cs != [] {
      var last := |cs| - 1;
      PositionSays(cs[..last], kind, model, now, known, p);
      if p < last { assert cs[..last][p] == cs[p]; }
    }
  }

  lemma {:induction false} PositionsRise(cs: seq<Candidate>, kind: Wanted, model: string, now: int, known: bool)
    ensures var ps := Positions(cs, kind, model, now, known); Increasing(ps) && InRange(ps, |cs|)
  {
    hide Serves;
    if cs != [] { PositionsRise(cs[..|cs| - 1], kind, model, now, known); }
  }

  lemma {:induction false} TiersPick(cs: seq<Candidate>, kind: Wanted, model: string, now: int)
    ensures var known, unknown := Positions(cs, kind, model, now, true), Positions(cs, kind, model, now, false);
            && InRange(known, |cs|) && KnownTier(cs, kind, model, now) == Listed(cs, known)
            && InRange(unknown, |cs|) && UnknownTier(cs, kind, model, now) == Listed(cs, unknown)
  {
    if cs != [] {
      var last := |cs| - 1;
      TiersPick(cs[..last], kind, model, now);
      PickPrefix(cs, last, Positions(cs[..last], kind, model, now, true));
      PickPrefix(cs, last, Positions(cs[..last], kind, model, now, false));
      PickMore(cs, Positions(cs[..last], kind, model, now, true), [last]);
      PickMore(cs, Positions(cs[..last], kind, model, now, false), [last]);
      ServesNow(cs[last], kind, model, now);
      hide Serves, Cooling, Usable, Listed;
      assert Listed(cs, [last]) == [cs[last]] by { PickOne(cs, last); }
    }
  }

  lemma PickOne(cs: seq<Candidate>, p: nat)
    requires p < |cs|
    ensures Listed(cs, [p]) == [cs[p]]
  {
  }

  lemma PickPrefix(cs: seq<Candidate>, n: nat, ps: seq<nat>)
    requires n <= |cs| && InRange(ps, n)
    ensures InRange(ps, |cs|) && Listed(cs[..n], ps) == Listed(cs, ps)
  {
  }

  lemma ServesNow(c: Candidate, kind: Wanted, model: string, now: int)
    ensures Serves(c, kind, model, now)
       <==> Usable(c, kind) && !Cooling(c, model, now) && (c.known ==> Capable(c, model))
  {
  }

  // ----- The order -----

  /** Positions of the tier that is ordered: the known candidates when there are any, else the unknown ones. */
  ghost function TierOf(cs: seq<Candidate>, kind: Wanted, model: string, now: int): seq<nat> {
    var known := Positions(cs, kind, model, now, true);
    if known != [] then known else Positions(cs, kind, model, now, false)
  }

  lemma EligibleIsTier(cs: seq<Candidate>, kind: Wanted, model: string, now: int)
    ensures var tier := TierOf(cs, kind, model, now);
            InRange(tier, |cs|) && Increasing(tier) && Eligible(cs, kind, model, now) == Listed(cs, tier)
  {
    TiersPick(cs, kind, model, now);
    PositionsRise(cs, kind, model, now, true);
    PositionsRise(cs, kind, model, now, false);
    hide KnownTier, UnknownTier, Positions, Serves;
  }

  /** How far behind a start an index lies, going around. */
  function Behind(start: nat, i: nat, n: nat): nat
    requires start < n && i < n
  {
    if i >= start then i - start else i + n - start
  }

  /** The indexes come one after the other, going around from the start. */
  ghost predicate GoesAround(ix: seq<nat>, start: nat, n: nat)
    requires start < n && InRange(ix, n)
  {
    forall j, k :: 0 <= j < k < |ix| ==> Behind(start, ix[j], n) < Behind(start, ix[k], n)
  }

  lemma {:induction false} RotatedGoesAround(n: nat, start: nat, left: int, k: nat)
    requires start < n && k <= n
    ensures var ix := RotatedIndexes(n, start, left, k);
            && InRange(ix, n) && GoesAround(ix, start, n)
            && forall j :: 0 <= j < |ix| ==> Behind(start, ix[j], n) < k
  {
    if k > 0 { RotatedGoesAround(n, start, left, k - 1); }
  }

  /** The first with the preferred id in front, if there is one, and the others going around from the start. */
  ghost predicate IsOrder(ix: seq<nat>, eligible: seq<Candidate>, start: nat, preferred: string)
    requires start < |eligible|
  {
    && IsPermutation(ix, |eligible|)
    && if HasCandidate(eligible, preferred) then
         && eligible[ix[0]].id == preferred && (forall k :: 0 <= k < ix[0] ==> eligible[k].id != preferred)
         && GoesAround(ix[1..], start, |eligible|)
       else GoesAround(ix, start, |eligible|)
  }

  lemma OrderedSays(eligible: seq<Candidate>, start: nat, preferred: string)
    requires start < |eligible|
    ensures var ix := OrderIndexes(eligible, start, preferred);
            IsOrder(ix, eligible, start, preferred) && Ordered(eligible, start, preferred) == Listed(eligible, ix)
  {
    var p := IndexOf(eligible, preferred);
    hide IndexOf, Ordered, RotatedIndexes, Listed;
    var ix := OrderIndexes(eligible, start, preferred);
    OrderIsPermutation(eligible, start, preferred);
    RotatedGoesAround(|eligible|, start, p, |eligible|);
    var rotated := RotatedIndexes(|eligible|, start, p, |eligible|);
    if p >= 0 { assert ix[1..] == rotated; } else { assert ix == rotated; }
  }

  /**
   An order is refused exactly when the tier is empty. Otherwise it lists every position of the tier once, the preferred
   one first and the others going around from the cursor; and the cursor moves on by one, of this provider and model
   alone.
   */
  lemma OrderSays(cursors: Cursors, kind: Wanted, model: string, cs: seq<Candidate>, preferred: string, now: int)
    ensures var tier := TierOf(cs, kind, model, now);
            var d := Order(cursors, kind, model, cs, preferred, now);
            InRange(tier, |cs|) && Increasing(tier) &&
            if tier == [] then d.order.None? && d.cursors == cursors
            else
              var key, n := CursorKey(kind, model), |tier|;
              && d.order.Some? && d.cursors == cursors[key := Cursor(cursors, key) + 1]
              && exists ix :: IsOrder(ix, Listed(cs, tier), Cursor(cursors, key) % n, preferred)
                              && d.order.value == Listed(Listed(cs, tier), ix)
  {
    EligibleIsTier(cs, kind, model, now);
    var tier, eligible := TierOf(cs, kind, model, now), Eligible(cs, kind, model, now);
    hide TierOf, Eligible, Ordered, Increasing, IsOrder;
    if tier != [] {
      OrderedSays(eligible, Cursor(cursors, CursorKey(kind, model)) % |tier|, preferred);
    }
  }

  /** What a cursor is kept under: the model, behind the provider and a zero byte when one is wanted. */
  predicate IsKey(key: string, kind: Wanted, model: string) {
    match kind
    case None => key == model
    case Some(XAI) => key == "xai" + [0 as char] + model
    case Some(Devin) => key == "devin" + [0 as char] + model
  }

  /**
   Different requests go around with different cursors, unless a model for any provider is named like a provider, a zero
   byte and a model.
   */
  lemma CursorsApart(kind: Wanted, model: string, other: Wanted, name: string)
    ensures IsKey(CursorKey(kind, model), kind, model)
    ensures CursorKey(kind, model) == CursorKey(other, name)
       <==> || (kind == other && model == name)
            || (kind.None? && other.Some? && IsKey(model, other, name))
            || (kind.Some? && other.None? && IsKey(name, kind, model))
  {
    if kind.Some? && other.Some? {
      var a, b := KindName(kind.value) + [0 as char], KindName(other.value) + [0 as char];
      assert (a + model)[0] == KindName(kind.value)[0] && (b + name)[0] == KindName(other.value)[0];
      assert (a + model)[|a|..] == model && (b + name)[|b|..] == name;
    }
  }

  /** Who stands in the tier: who can serve now, of the known candidates when any of them can. */
  lemma TierSays(cs: seq<Candidate>, kind: Wanted, model: string, now: int, p: nat)
    ensures p in TierOf(cs, kind, model, now)
       <==> p < |cs| && Serves(cs[p], kind, model, now) && cs[p].known == SomeoneServes(cs, kind, model, now, true)
  {
    hide Positions, Serves;
    PositionSays(cs, kind, model, now, true, p);
    PositionSays(cs, kind, model, now, false, p);
    var known := Positions(cs, kind, model, now, true);
    if known != [] {
      PositionSays(cs, kind, model, now, true, known[0]);
    } else if k :| 0 <= k < |cs| && cs[k].known && Serves(cs[k], kind, model, now) {
      PositionSays(cs, kind, model, now, true, k);
    }
  }

  // ----- When to retry -----

  /** The moment from which a candidate may serve the model, as far as cooldowns go. */
  predicate FreeFrom(c: Candidate, model: string, at: int) {
    && (model in c.cooldownUntil ==> c.cooldownUntil[model] <= at)
    && ("*" in c.cooldownUntil ==> c.cooldownUntil["*"] <= at)
    && ((model in c.cooldownUntil && c.cooldownUntil[model] == at)
        || ("*" in c.cooldownUntil && c.cooldownUntil["*"] == at))
  }

  ghost predicate IsServer(cs: seq<Candidate>, kind: Kind, model: string, c: Candidate) {
    && c in cs && CouldServe(c, Some(kind), model)
    && (c.known || forall d :: d in cs && CouldServe(d, Some(kind), model) ==> !d.known)
  }

  lemma AvailableSays(c: Candidate, model: string, at: int)
    ensures AvailableAt(c, model) == Some(at) <==> FreeFrom(c, model, at)
  {
  }

  lemma {:induction false} EarliestExactly(cs: seq<Candidate>, model: string, now: int)
    requires cs != []
    ensures var at := Earliest(cs, model, now);
            && (at.Some? <==> forall c :: c in cs ==> AvailableAt(c, model).Some? && AvailableAt(c, model).value > now)
            && (at.Some? ==> forall c :: c in cs ==> AvailableAt(c, model).value >= at.value)
            && (at.Some? ==> exists c :: c in cs && AvailableAt(c, model) == at)
    decreases |cs|
  {
    hide AvailableAt;
    var last, most := cs[|cs| - 1], cs[..|cs| - 1];
    assert forall c :: c in cs <==> c in most || c == last;
    if |cs| > 1 { EarliestExactly(most, model, now); }
  }

  lemma ServersServe(cs: seq<Candidate>, kind: Kind, model: string, known: bool, c: Candidate)
    requires c in Servers(cs, kind, model, known)
    requires known || Servers(cs, kind, model, true) == []
    ensures IsServer(cs, kind, model, c)
  {
    ServersSay(cs, kind, model, known, c);
    hide CouldServe;
    if !known {
      forall d | d in cs && CouldServe(d, Some(kind), model) ensures !d.known { ServersSay(cs, kind, model, true, d); }
    }
  }

  lemma ServesAmong(cs: seq<Candidate>, kind: Kind, model: string, c: Candidate)
    requires IsServer(cs, kind, model, c)
    ensures var known := Servers(cs, kind, model, true);
            c in (if known != [] then known else Servers(cs, kind, model, false))
  {
    hide CouldServe;
    ServersSay(cs, kind, model, true, c);
    ServersSay(cs, kind, model, false, c);
    var known := Servers(cs, kind, model, true);
    if known != [] && !c.known { ServersSay(cs, kind, model, true, known[0]); }
  }

  /**
   A retry time is given exactly when somebody could serve and all who could, the known ones when there are any, are
   held back by cooldowns; and it is the first moment at which one of them is free.
   */
  lemma RetryExactly(cs: seq<Candidate>, kind: Kind, model: string, now: int)
    ensures var at := AllCooling(cs, kind, model, now);
            && (at.Some? <==>
                 (exists c :: IsServer(cs, kind, model, c))
                 && forall c :: IsServer(cs, kind, model, c) ==> exists t :: t > now && FreeFrom(c, model, t))
            && (at.Some? ==> exists c :: IsServer(cs, kind, model, c) && FreeFrom(c, model, at.value))
            && (at.Some? ==> forall c, t :: IsServer(cs, kind, model, c) && FreeFrom(c, model, t) ==> at.value <= t)
  {
    var known := Servers(cs, kind, model, true);
    var servers := if known != [] then known else Servers(cs, kind, model, false);
    forall c ensures c in servers <==> IsServer(cs, kind, model, c) {
      if c in servers { ServersServe(cs, kind, model, known != [], c); }
      if IsServer(cs, kind, model, c) { ServesAmong(cs, kind, model, c); }
    }
    forall c, t ensures FreeFrom(c, model, t) <==> AvailableAt(c, model) == Some(t) { AvailableSays(c, model, t); }
    hide IsServer, FreeFrom, AvailableAt, Servers, Earliest;
    if servers == [] {
    } else {
      EarliestExactly(servers, model, now);
      FreeMoments(servers, model, now);
      assert IsServer(cs, kind, model, servers[0]);
    }
  }

  lemma FreeMoments(cs: seq<Candidate>, model: string, now: int)
    requires forall c, t :: FreeFrom(c, model, t) <==> AvailableAt(c, model) == Some(t)
    ensures forall c :: c in cs ==>
              ((AvailableAt(c, model).Some? && AvailableAt(c, model).value > now)
               <==> exists t :: t > now && FreeFrom(c, model, t))
  {
    hide FreeFrom, AvailableAt;
    forall c | c in cs
      ensures (AvailableAt(c, model).Some? && AvailableAt(c, model).value > now)
          <==> exists t :: t > now && FreeFrom(c, model, t)
    {
      if AvailableAt(c, model).Some? { assert FreeFrom(c, model, AvailableAt(c, model).value); }
    }
  }
}
