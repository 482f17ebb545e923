/**
 The administrator login throttle: a failure counter per source with growing
 cooldowns, and a global breaker counting source locks. Times are Unix seconds.
 */
module ThrottleSteps {
  import opened Basics

  /** The hash of a client address. */
  type Source = string

  datatype Policy = Policy(
    failureResetAfter: int, cooldownAfterThree: int, cooldownAfterFour: int, lockAfterFive: int,
    globalWindow: int, globalSourceLockLimit: int, globalBlockDuration: int, sourceRetention: int)
  {
    predicate Validate() {
      && failureResetAfter > 0 && cooldownAfterThree > 0 && cooldownAfterFour > 0 && lockAfterFive > 0
      && globalWindow > 0 && globalBlockDuration > 0 && sourceRetention > 0 && globalSourceLockLimit >= 2
    }
  }

  const DEFAULT_POLICY := Policy(900, 5, 30, 900, 900, 25, 60, 86400)

  datatype Row = Row(count: nat, blockedUntil: Option<int>, lastFailure: int, updated: int)

  datatype GlobalRow = GlobalRow(windowStarted: int, sourceLocks: nat, blockedUntil: Option<int>)

  datatype Transition =
    | SourceCooldown(count: nat, until: int)
    | SourceLocked(count: nat, until: int)
    | SourceUnlocked(prior: nat)
    | SourceReset(prior: nat)
    | GlobalArmed(until: int, locks: nat)
    | GlobalReleased

  datatype State = State(sources: map<Source, Row>, global: Option<GlobalRow>)

  const EMPTY := State(map[], None)

  predicate After(until: Option<int>, now: int) {
    until.Some? && until.value > now
  }

  /** The later of two instants, where no instant at all is earlier than any. */
  function Later(a: Option<int>, b: Option<int>): Option<int> {
    if b.Some? && (a.None? || b.value > a.value) then b else a
  }

  /** A failure counter that no longer counts. */
  predicate Stale(row: Row, now: int, p: Policy) {
    row.count == 5 || row.lastFailure <= now - p.failureResetAfter
  }

  predicate SourceBlocked(s: State, source: Source, now: int) {
    source in s.sources && After(s.sources[source].blockedUntil, now)
  }

  function CheckSource(s: State, source: Source, now: int, p: Policy): State {
    if source in s.sources && !After(s.sources[source].blockedUntil, now) && Stale(s.sources[source], now, p)
    then s.(sources := s.sources - {source}) else s
  }

  function CheckSourceTransitions(s: State, source: Source, now: int): seq<Transition> {
    if source in s.sources && !After(s.sources[source].blockedUntil, now) && s.sources[source].count == 5
    then [SourceUnlocked(5)] else []
  }

  function CheckGlobal(g: Option<GlobalRow>, now: int, p: Policy): Option<GlobalRow> {
    if g.None? || After(g.value.blockedUntil, now) then g
    else if g.value.blockedUntil.Some? then Some(GlobalRow(now, 0, None))
    else if g.value.windowStarted <= now - p.globalWindow then Some(g.value.(windowStarted := now, sourceLocks := 0))
    else g
  }

  function CheckGlobalTransitions(g: Option<GlobalRow>, now: int): seq<Transition> {
    if g.Some? && g.value.blockedUntil.Some? && !After(g.value.blockedUntil, now) then [GlobalReleased] else []
  }

  /** The block in force, whether of the source or global, whichever ends later. */
  function BlockedUntil(s: State, source: Source, now: int): Option<int> {
    var mine := if SourceBlocked(s, source, now) then s.sources[source].blockedUntil else None;
    if s.global.Some? && After(s.global.value.blockedUntil, now) then Later(mine, s.global.value.blockedUntil) else mine
  }

  /** Checking releases what has run out. */
  function Check(s: State, source: Source, now: int, p: Policy): State {
    CheckSource(s, source, now, p).(global := CheckGlobal(s.global, now, p))
  }

  function Cooldown(count: nat, now: int, p: Policy): Option<int> {
    if count == 3 then Some(now + p.cooldownAfterThree)
    else if count == 4 then Some(now + p.cooldownAfterFour)
    else if count == 5 then Some(now + p.lockAfterFive)
    else None
  }

  function NextCount(s: State, source: Source, now: int, p: Policy): nat {
    if source !in s.sources || Stale(s.sources[source], now, p) then 1 else s.sources[source].count + 1
  }

  predicate StartsWindow(g: Option<GlobalRow>, now: int, p: Policy) {
    g.None? || g.value.windowStarted <= now - p.globalWindow
      || (g.value.blockedUntil.Some? && g.value.blockedUntil.value <= now)
  }

  function RecordSourceLock(g: Option<GlobalRow>, now: int, p: Policy): GlobalRow {
    var start := if StartsWindow(g, now, p) then now else g.value.windowStarted;
    var locks := if StartsWindow(g, now, p) then 1 else g.value.sourceLocks + 1;
    GlobalRow(start, locks, if locks >= p.globalSourceLockLimit then Some(now + p.globalBlockDuration) else None)
  }

  function RecordFailure(s: State, source: Source, now: int, p: Policy): State {
    var count := NextCount(s, source, now, p);
    State(s.sources[source := Row(count, Cooldown(count, now, p), now, now)],
          if count == 5 then Some(RecordSourceLock(s.global, now, p)) else s.global)
  }

  function FailureTransitions(s: State, source: Source, now: int, p: Policy): seq<Transition> {
    var count := NextCount(s, source, now, p);
    if count == 3 || count == 4 then [SourceCooldown(count, Cooldown(count, now, p).value)]
    else if count == 5 then
      var g := RecordSourceLock(s.global, now, p);
      [SourceLocked(5, now + p.lockAfterFive)]
          + if g.blockedUntil.Some? then [GlobalArmed(g.blockedUntil.value, g.sourceLocks)] else []
    else []
  }

  function ResetSource(s: State, source: Source): State {
    s.(sources := s.sources - {source})
  }

  /** The rows a cleanup may remove. */
  ghost function Expired(s: State, before: int): set<Source> {
    set source | source in s.sources && s.sources[source].updated <= before
  }

  function Cleanup(s: State, victims: set<Source>): State {
    s.(sources := s.sources - victims)
  }

  /** Where the database gives up during an attempt, if anywhere; each of its transactions happens whole or not. */
  datatype Fault = NoFault | CheckFails | WriteFails

  datatype Disposition = Authenticated | Rejected | Blocked(retryAfter: int) | Unavailable

  datatype Verdict = Verdict(state: State, disposition: Disposition)

  /** One login attempt, whose credentials are looked at only when nothing blocks it. */
  function Evaluate(s: State, source: Source, now: int, verified: bool, fault: Fault, p: Policy): Verdict {
    var checked := Check(s, source, now, p);
    var until := BlockedUntil(s, source, now);
    if fault == CheckFails then Verdict(s, Unavailable)
    else if After(until, now) then Verdict(checked, Blocked(until.value - now))
    else if fault == WriteFails then Verdict(checked, Unavailable)
    else if verified then Verdict(ResetSource(checked, source), Authenticated)
    else Verdict(RecordFailure(checked, source, now, p), Rejected)
  }
}

/** The repository and the guard, proved against the step functions. */
module AdminAuthThrottle {
  import opened Basics
  import opened Steps = ThrottleSteps

  const CLEANUP_BATCH_SIZE := 500

  class AdminAuthThrottleRepository {
    var sources: map<Source, Row>
    var global: Option<GlobalRow>

    function Tables(): State
      reads this
    {
      State(sources, global)
    }

    constructor ()
      ensures Tables() == EMPTY
    {
      sources, global := map[], None;
    }

    method Check(source: Source, now: int, policy: Policy) returns (blockedUntil: Option<int>,
          transitions: seq<Transition>)
      modifies this
      ensures Tables() == Steps.Check(old(Tables()), source, now, policy)
      ensures blockedUntil == BlockedUntil(old(Tables()), source, now)
      ensures transitions
           == CheckSourceTransitions(old(Tables()), source, now) + CheckGlobalTransitions(old(global), now)
    {
      blockedUntil, transitions := None, [];
      if source in sources {
        var row := sources[source];
        if After(row.blockedUntil, now) {
          blockedUntil := row.blockedUntil;
        } else if row.count == 5 {
          sources := sources - {source};
          transitions := [SourceUnlocked(row.count)];
        } else if row.lastFailure <= now - policy.failureResetAfter {
          sources := sources - {source};
        }
      }
      if global.Some? {
        var row := global.value;
        if After(row.blockedUntil, now) {
          blockedUntil := Later(blockedUntil, row.blockedUntil);
        } else if row.blockedUntil.Some? {
          global := Some(GlobalRow(now, 0, None));
          transitions := transitions + [GlobalReleased];
        } else if row.windowStarted <= now - policy.globalWindow {
          global := Some(row.(windowStarted := now, sourceLocks := 0));
        }
      }
    }

    method RecordSourceLock(now: int, policy: Policy) returns (armed: seq<Transition>)
      modifies this`global
      ensures global == Some(Steps.RecordSourceLock(old(global), now, policy))
      ensures armed
           == if global.value.blockedUntil.Some?
              then [GlobalArmed(global.value.blockedUntil.value, global.value.sourceLocks)] else []
    {
      var start, locks := now, 0;
      if !StartsWindow(global, now, policy) {
        start, locks := global.value.windowStarted, global.value.sourceLocks;
      }
      locks := locks + 1;
      var blocked := None;
      armed := [];
      if locks >= policy.globalSourceLockLimit {
        blocked := Some(now + policy.globalBlockDuration);
        armed := [GlobalArmed(now + policy.globalBlockDuration, locks)];
      }
      global := Some(GlobalRow(start, locks, blocked));
    }

    method RecordFailure(source: Source, now: int, policy: Policy) returns (transitions: seq<Transition>)
      modifies this
      ensures Tables() == Steps.RecordFailure(old(Tables()), source, now, policy)
      ensures transitions == FailureTransitions(old(Tables()), source, now, policy)
    {
      var count := 0;
      if source in sources && sources[source].count != 5
        && sources[source].lastFailure > now - policy.failureResetAfter {
        count := sources[source].count;
      }
      count := count + 1;
      transitions := [];
      var blocked := None;
      if count == 3 {
        blocked := Some(now + policy.cooldownAfterThree);
        transitions := [SourceCooldown(count, now + policy.cooldownAfterThree)];
      } else if count == 4 {
        blocked := Some(now + policy.cooldownAfterFour);
        transitions := [SourceCooldown(count, now + policy.cooldownAfterFour)];
      } else if count == 5 {
        blocked := Some(now + policy.lockAfterFive);
        transitions := [SourceLocked(count, now + policy.lockAfterFive)];
      }
      sources := sources[source := Row(count, blocked, now, now)];
      if count == 5 {
        var armed := RecordSourceLock(now, policy);
        transitions := transitions + armed;
      }
    }

    method ResetSource(source: Source) returns (reset: Option<Transition>)
      modifies this`sources
      ensures Tables() == Steps.ResetSource(old(Tables()), source)
      ensures reset == if source in old(sources) then Some(SourceReset(old(sources)[source].count)) else None
    {
      if source !in sources { return None; }
      reset := Some(SourceReset(sources[source].count));
      sources := sources - {source};
    }

    /** Deletes a batch of rows not updated since, in no particular order. */
    method Cleanup(before: int) returns (removed: nat)
      modifies this`sources
      ensures exists victims | victims <= Expired(old(Tables()), before) ::
                Tables() == Steps.Cleanup(old(Tables()), victims)
                  && removed == |victims| == Min(CLEANUP_BATCH_SIZE, |Expired(old(Tables()), before)|)
    {
      var left := set source | source in sources && sources[source].updated <= before;
      ghost var all := left;
      assert all == Expired(Tables(), before);
      ghost var victims: set<Source> := {};
      removed := 0;
      assert sources == old(sources) - victims;
      while left != {} && removed < CLEANUP_BATCH_SIZE
        invariant left !! victims && left + victims == all && |victims| == removed <= CLEANUP_BATCH_SIZE
        invariant sources == old(sources) - victims
        decreases |left|
      {
        var source := Pick(left);
        sources := sources - {source};
        left := left - {source};
        victims := victims + {source};
        removed := removed + 1;
      }
      SplitSize(all, left, victims);
      hide Expired;
      assert Tables() == Steps.Cleanup(old(Tables()), victims);
    }
  }

  /** The guard in front of the repository; its mutex makes each method one step. */
  class Guard {
    const repository: AdminAuthThrottleRepository
    const policy: Policy

    constructor (repository: AdminAuthThrottleRepository, policy: Policy)
      requires policy.Validate()
      ensures this.repository == repository && this.policy == policy
    {
      this.repository, this.policy := repository, policy;
    }

    /** The guard a caller is given: none without a repository or for an invalid policy. */
    static method NewGuard(repository: AdminAuthThrottleRepository?, policy: Policy) returns (guard: Guard?)
      ensures guard != null <==> repository != null && policy.Validate()
      ensures guard != null ==> fresh(guard) && guard.repository == repository && guard.policy == policy
    {
      if repository == null || !policy.Validate() { return null; }
      guard := new Guard(repository, policy);
    }

    /** The answer of verify is used only when the attempt is not blocked. */
    method Evaluate(source: Source, now: int, verify: bool, fault: Fault) returns (outcome: Disposition)
      modifies repository
      ensures Verdict(repository.Tables(), outcome)
           == Steps.Evaluate(old(repository.Tables()), source, now, verify, fault, policy)
    {
      if fault == CheckFails { return Unavailable; }
      var blockedUntil, released := repository.Check(source, now, policy);
      if After(blockedUntil, now) {
        return Blocked(blockedUntil.value - now);
      }
      if verify {
        if fault == WriteFails { return Unavailable; }
        var reset := repository.ResetSource(source);
        return Authenticated;
      }
      if fault == WriteFails { return Unavailable; }
      var transitions := repository.RecordFailure(source, now, policy);
      return Rejected;
    }

    /** A failure found by the caller: the same as an attempt whose credentials are wrong. */
    method RecordFailure(source: Source, now: int, fault: Fault) returns (outcome: Disposition)
      modifies repository
      ensures Verdict(repository.Tables(), outcome)
           == Steps.Evaluate(old(repository.Tables()), source, now, false, fault, policy)
    {
      if fault == CheckFails { return Unavailable; }
      var blockedUntil, released := repository.Check(source, now, policy);
      if After(blockedUntil, now) {
        return Blocked(blockedUntil.value - now);
      }
      if fault == WriteFails { return Unavailable; }
      var transitions := repository.RecordFailure(source, now, policy);
      return Rejected;
    }
  }
}
