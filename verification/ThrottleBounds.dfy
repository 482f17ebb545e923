/** What the throttle guarantees over whole runs, on a clock that never goes back. */
module ThrottleBounds {
  import opened Basics
  import opened ThrottleSteps

  /** A login attempt, or a cleanup that removes the given rows as far as they have expired. */
  datatype Op =
    | Attempt(now: int, source: Source, verified: bool, fault: Fault)
    | Sweep(now: int, victims: set<Source>)

  ghost function Apply(s: State, op: Op, p: Policy): State {
    match op
    case Attempt(now, source, verified, fault) => Evaluate(s, source, now, verified, fault, p).state
    case Sweep(now, victims) => Cleanup(s, victims * Expired(s, now - p.sourceRetention))
  }

  ghost function Run(ops: seq<Op>, p: Policy): State {
    if ops == [] then EMPTY else Apply(Run(ops[..|ops| - 1], p), ops[|ops| - 1], p)
  }

  predicate Timed(ops: seq<Op>) {
    forall i, j :: 0 <= i < j < |ops| ==> ops[i].now <= ops[j].now
  }

  function LastTime(ops: seq<Op>): int {
    if ops == [] then 0 else ops[|ops| - 1].now
  }

  /** What an attempt by the source was told; None for any other step. */
  ghost function Told(s: State, op: Op, source: Source, p: Policy): Option<Disposition> {
    if op.Attempt? && op.source == source
    then Some(Evaluate(s, source, op.now, op.verified, op.fault, p).disposition) else None
  }

  /** When the source was rejected since its last success, or ever when it had none. */
  ghost function Rejections(ops: seq<Op>, source: Source, p: Policy): seq<int> {
    if ops == [] then []
    else
      var most := Rejections(ops[..|ops| - 1], source, p);
      var op := ops[|ops| - 1];
      match Told(Run(ops[..|ops| - 1], p), op, source, p)
      case Some(Rejected) => most + [op.now]
      case Some(Authenticated) => []
      case _ => most
  }

  /** Whether a step locks its source: its fifth counted failure. */
  ghost predicate Locks(s: State, op: Op, p: Policy) {
    op.Attempt? && Told(s, op, op.source, p) == Some(Rejected) && Apply(s, op, p).sources[op.source].count == 5
  }

  ghost function LockTimes(ops: seq<Op>, p: Policy): seq<int> {
    if ops == [] then []
    else
      LockTimes(ops[..|ops| - 1], p) + if Locks(Run(ops[..|ops| - 1], p), ops[|ops| - 1], p) then [ops[|ops| - 1].now]
      else []
  }

  /** How many of the times lie in the half-open window [from, to). */
  function CountWithin(times: seq<int>, from: int, to: int): nat {
    if times == [] then 0
    else CountWithin(times[..|times| - 1], from, to) + if from <= times[|times| - 1] < to then 1 else 0
  }

  /** Sorted, and no k+1 consecutive times closer together than the width. */
  ghost predicate Spaced(times: seq<int>, k: nat, width: int) {
    && (forall i, j :: 0 <= i < j < |times| ==> times[i] <= times[j])
    && (forall i :: 0 <= i && i + k < |times| ==> times[i] + width <= times[i + k])
  }

  lemma {:induction false} CountTail(times: seq<int>, from: int, to: int, skipped: nat)
    requires skipped <= |times| && forall i :: 0 <= i < skipped ==> times[i] < from
    ensures CountWithin(times, from, to) <= |times| - skipped
  {
    if times != [] {
      CountTail(times[..|times| - 1], from, to, Min(skipped, |times| - 1));
    }
  }

  /** A window as wide as the spacing holds at most k times. */
  lemma {:induction false} SpacedBound(times: seq<int>, k: nat, width: int, from: int)
    requires Spaced(times, k, width)
    ensures CountWithin(times, from, from + width) <= k
  {
    if times != [] {
      var n := |times|;
      if from <= times[n - 1] < from + width {
        forall i | 0 <= i < Max(0, n - k) ensures times[i] < from {
          assert times[i] + width <= times[i + k];
        }
        CountTail(times, from, from + width, Max(0, n - k));
      } else {
        SpacedBound(times[..n - 1], k, width, from);
      }
    }
  }

  // ----- One source -----

  function SourceWidth(p: Policy): int {
    Min(Min(p.failureResetAfter, p.lockAfterFive), p.sourceRetention)
  }

  /** The row of a source remembers its current streak; before the streak there was a pause. */
  ghost predicate Remembered(row: Option<Row>, times: seq<int>, now: int, p: Policy) {
    var n := |times|;
    && (n > 0 ==> times[n - 1] <= now)
    && match row
       case None => n > 0 ==> times[n - 1] + SourceWidth(p) <= now
       case Some(r) =>
         && 1 <= r.count <= 5 && r.count <= n && r.lastFailure == r.updated == times[n - 1]
         && (r.count == 5 ==> r.blockedUntil == Some(r.lastFailure + p.lockAfterFive))
         && (r.count < n ==> times[n - r.count - 1] + SourceWidth(p) <= times[n - r.count])
  }

  function RowOf(s: State, source: Source): Option<Row> {
    if source in s.sources then Some(s.sources[source]) else None
  }

  ghost predicate SourceInvariant(s: State, source: Source, times: seq<int>, now: int, p: Policy) {
    Spaced(times, 5, SourceWidth(p)) && Remembered(RowOf(s, source), times, now, p)
  }

  lemma CheckRemembers(s: State, source: Source, times: seq<int>, then': int, now: int, p: Policy)
    requires p.Validate() && Remembered(RowOf(s, source), times, then', p) && then' <= now
    ensures Remembered(RowOf(Check(s, source, now, p), source), times, now, p)
    ensures !SourceBlocked(s, source, now) ==>
              RowOf(Check(s, source, now, p), source).Some? ==> RowOf(Check(s, source, now, p), source).value.count < 5
  {
  }

  /** One more time keeps the spacing when the k-th time before it is a width ago. */
  lemma SpacedMore(times: seq<int>, k: nat, width: int, now: int)
    requires Spaced(times, k, width) && k > 0
    requires |times| > 0 ==> times[|times| - 1] <= now
    requires |times| >= k ==> times[|times| - k] + width <= now
    ensures Spaced(times + [now], k, width)
  {
  }

  /** The pause before the streak lies at or behind the fifth time back. */
  lemma FifthIsOld(row: Option<Row>, times: seq<int>, now: int, p: Policy)
    requires Remembered(row, times, now, p) && |times| >= 5
    requires forall i, j :: 0 <= i < j < |times| ==> times[i] <= times[j]
    requires row.Some? ==> row.value.count < 5 || row.value.lastFailure <= now - p.failureResetAfter
    ensures times[|times| - 5] + SourceWidth(p) <= now
  {
  }

  lemma FailureRemembers(s: State, source: Source, times: seq<int>, now: int, p: Policy)
    requires p.Validate() && Spaced(times, 5, SourceWidth(p)) && Remembered(RowOf(s, source), times, now, p)
    requires source in s.sources ==> s.sources[source].count < 5
    ensures SourceInvariant(RecordFailure(s, source, now, p), source, times + [now], now, p)
  {
    if |times| >= 5 { FifthIsOld(RowOf(s, source), times, now, p); }
    SpacedMore(times, 5, SourceWidth(p), now);
    hide Spaced, RecordSourceLock;
  }

  lemma AttemptKeeps(s: State, op: Op, source: Source, times: seq<int>, then': int, p: Policy)
    requires p.Validate() && SourceInvariant(s, source, times, then', p) && then' <= op.now && op.Attempt?
    requires op.source == source
    ensures var after := match Told(s, op, source, p) case Some(Rejected) => times
              + [op.now] case Some(Authenticated) => [] case _ => times;
            SourceInvariant(Apply(s, op, p), source, after, op.now, p)
  {
    hide Check, RecordFailure, Remembered, Spaced;
    CheckRemembers(s, source, times, then', op.now, p);
    TimePasses(RowOf(s, source), times, then', op.now, p);
    var checked := Check(s, source, op.now, p);
    var d := Evaluate(s, source, op.now, op.verified, op.fault, p).disposition;
    if d == Rejected {
      FailureRemembers(checked, source, times, op.now, p);
    } else if d == Authenticated {
      NothingRemembered(op.now, p);
    }
  }

  lemma TimePasses(row: Option<Row>, times: seq<int>, then': int, now: int, p: Policy)
    requires Remembered(row, times, then', p) && then' <= now
    ensures Remembered(row, times, now, p)
  {
  }

  lemma NothingRemembered(now: int, p: Policy)
    ensures Remembered(None, [], now, p) && Spaced([], 5, SourceWidth(p))
  {
  }

  /**
   Steps that are not attempts by the source leave its row alone, except that a cleanup may remove it once it is old.
   */
  lemma OthersKeep(s: State, op: Op, source: Source, times: seq<int>, then': int, p: Policy)
    requires SourceInvariant(s, source, times, then', p) && then' <= op.now && !(op.Attempt? && op.source == source)
    ensures SourceInvariant(Apply(s, op, p), source, times, op.now, p)
  {
    hide Spaced;
  }

  lemma {:induction false} RunKeepsSource(ops: seq<Op>, source: Source, p: Policy)
    requires p.Validate() && Timed(ops)
    ensures SourceInvariant(Run(ops, p), source, Rejections(ops, source, p), LastTime(ops), p)
  {
    hide SourceInvariant, Apply, Evaluate;
    if ops == [] {
      EmptyInvariant(source, p);
    } else {
      var most, op := ops[..|ops| - 1], ops[|ops| - 1];
      RunKeepsSource(most, source, p);
      var s, times := Run(most, p), Rejections(most, source, p);
      var then' := if most == [] then op.now else LastTime(most);
      if most == [] { EmptyAnytime(source, op.now, p); }
      if op.Attempt? && op.source == source {
        AttemptKeeps(s, op, source, times, then', p);
      } else {
        OthersKeep(s, op, source, times, then', p);
      }
    }
  }

  lemma EmptyInvariant(source: Source, p: Policy)
    ensures SourceInvariant(EMPTY, source, [], 0, p)
  {
  }

  lemma EmptyAnytime(source: Source, now: int, p: Policy)
    ensures SourceInvariant(EMPTY, source, [], now, p)
  {
  }

  /**
   However attempts, other sources, global blocks and cleanups interleave, between two of its successes a source is
   rejected at most five times in any half-open window of the shortest of the three source durations.
   */
  lemma RejectedAtMostFive(ops: seq<Op>, source: Source, p: Policy, from: int)
    requires p.Validate() && Timed(ops)
    ensures CountWithin(Rejections(ops, source, p), from, from + SourceWidth(p)) <= 5
  {
    hide Run, Rejections;
    RunKeepsSource(ops, source, p);
    SpacedBound(Rejections(ops, source, p), 5, SourceWidth(p), from);
  }

  // ----- The breaker -----

  function GlobalWidth(p: Policy): int {
    Min(p.globalWindow, p.globalBlockDuration)
  }

  /**
   The breaker counts the locks of the window that began at its start; all but a window's worth of the others are old.
   */
  ghost predicate BreakerCounts(g: Option<GlobalRow>, times: seq<int>, p: Policy)
    requires p.Validate()
  {
    var n, limit := |times|, p.globalSourceLockLimit;
    if g.None? then n == 0
    else
      var w, c := g.value.windowStarted, g.value.sourceLocks;
      && c <= limit && c <= n && (c == limit <==> g.value.blockedUntil.Some?)
      && (g.value.blockedUntil.Some? ==> n > 0 && g.value.blockedUntil.value == times[n - 1] + p.globalBlockDuration)
      && (forall i :: 0 <= i < n - c ==> times[i] <= w)
      && (forall i :: 0 <= i < n - c - (limit - 1) ==> times[i] + GlobalWidth(p) <= w)
  }

  ghost predicate BreakerInvariant(g: Option<GlobalRow>, times: seq<int>, now: int, p: Policy)
    requires p.Validate()
  {
    && BreakerCounts(g, times, p) && Spaced(times, 2 * p.globalSourceLockLimit - 1, GlobalWidth(p))
    && (g.Some? ==> g.value.windowStarted <= now) && (|times| > 0 ==> times[|times| - 1] <= now)
  }

  lemma CheckKeepsBreaker(g: Option<GlobalRow>, times: seq<int>, then': int, now: int, p: Policy)
    requires p.Validate() && BreakerInvariant(g, times, then', p) && then' <= now
    ensures BreakerInvariant(CheckGlobal(g, now, p), times, now, p)
    ensures var h := CheckGlobal(g, now, p);
            h.Some? && !After(h.value.blockedUntil, now) ==>
              h.value.blockedUntil.None? && h.value.windowStarted > now - p.globalWindow
  {
  }

  lemma LockKeepsBreaker(g: Option<GlobalRow>, times: seq<int>, now: int, p: Policy)
    requires p.Validate() && BreakerInvariant(g, times, now, p)
    requires g.Some? ==> g.value.blockedUntil.None? && g.value.windowStarted > now - p.globalWindow
    ensures BreakerInvariant(Some(RecordSourceLock(g, now, p)), times + [now], now, p)
  {
  }

  lemma StepKeepsBreaker(s: State, op: Op, times: seq<int>, then': int, p: Policy)
    requires p.Validate() && BreakerInvariant(s.global, times, then', p) && then' <= op.now
    ensures BreakerInvariant(Apply(s, op, p).global, if Locks(s, op, p) then times + [op.now] else times, op.now, p)
  {
    hide BreakerCounts, Spaced, CheckGlobal, RecordSourceLock;
    if op.Attempt? {
      CheckKeepsBreaker(s.global, times, then', op.now, p);
      if Locks(s, op, p) {
        UnblockedBreaker(s, op.source, op.now, p);
        LockKeepsBreaker(CheckGlobal(s.global, op.now, p), times, op.now, p);
      }
    }
  }

  lemma UnblockedBreaker(s: State, source: Source, now: int, p: Policy)
    requires !After(BlockedUntil(s, source, now), now)
    ensures var h := CheckGlobal(s.global, now, p); h.Some? ==> !After(h.value.blockedUntil, now)
  {
  }

  lemma {:induction false} RunKeepsBreaker(ops: seq<Op>, p: Policy)
    requires p.Validate() && Timed(ops)
    ensures BreakerInvariant(Run(ops, p).global, LockTimes(ops, p), LastTime(ops), p)
  {
    hide Apply, Locks, BreakerInvariant;
    if ops == [] {
      FreshBreaker(0, p);
    } else {
      var most, op := ops[..|ops| - 1], ops[|ops| - 1];
      RunKeepsBreaker(most, p);
      if most == [] { FreshBreaker(op.now, p); }
      assert LockTimes(most, p) + [] == LockTimes(most, p);
      StepKeepsBreaker(Run(most, p), op, LockTimes(most, p), if most == [] then op.now else LastTime(most), p);
    }
  }

  lemma FreshBreaker(now: int, p: Policy)
    requires p.Validate()
    ensures BreakerInvariant(None, [], now, p)
  {
  }

  /** In every reachable state the breaker has counted at most its limit, and exactly that while a block is stored. */
  lemma BreakerWithinLimit(ops: seq<Op>, p: Policy)
    requires p.Validate() && Timed(ops)
    ensures var g := Run(ops, p).global;
            g.Some? ==> g.value.sourceLocks <= p.globalSourceLockLimit
                        && (g.value.sourceLocks == p.globalSourceLockLimit <==> g.value.blockedUntil.Some?)
  {
    RunKeepsBreaker(ops, p);
    hide Run;
  }

  /**
   Fewer than twice the limit of new source locks in any half-open window of the shorter of the two global durations.
   */
  lemma LocksBounded(ops: seq<Op>, p: Policy, from: int)
    requires p.Validate() && Timed(ops)
    ensures CountWithin(LockTimes(ops, p), from, from + GlobalWidth(p)) <= 2 * p.globalSourceLockLimit - 1
  {
    hide Run, LockTimes, BreakerCounts;
    RunKeepsBreaker(ops, p);
    SpacedBound(LockTimes(ops, p), 2 * p.globalSourceLockLimit - 1, GlobalWidth(p), from);
  }

  /** Under the default policy: five rejections of a source in fifteen minutes, 49 source locks in a minute. */
  lemma DefaultBounds(ops: seq<Op>, source: Source, from: int)
    requires Timed(ops)
    ensures CountWithin(Rejections(ops, source, DEFAULT_POLICY), from, from + 900) <= 5
    ensures CountWithin(LockTimes(ops, DEFAULT_POLICY), from, from + 60) <= 49
  {
    hide Rejections, LockTimes, CountWithin;
    RejectedAtMostFive(ops, source, DEFAULT_POLICY, from);
    LocksBounded(ops, DEFAULT_POLICY, from);
  }
}
