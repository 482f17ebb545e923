/**
 Who is blocked, and for how long: each attempt told on the stored rows, and the
 blocks of a streak over whole runs.
 */
module ThrottleBlocks {
  import opened Basics
  import opened ThrottleSteps
  import opened ThrottleBounds

  // ----- One attempt, told on the stored rows -----

  predicate SourceHeld(s: State, source: Source, now: int) {
    source in s.sources && s.sources[source].blockedUntil.Some? && s.sources[source].blockedUntil.value > now
  }

  predicate GlobalHeld(s: State, now: int) {
    s.global.Some? && s.global.value.blockedUntil.Some? && s.global.value.blockedUntil.value > now
  }

  /** How long the longer of the blocks in force still lasts. */
  function Remaining(s: State, source: Source, now: int): int
    requires SourceHeld(s, source, now) || GlobalHeld(s, now)
  {
    var mine := if SourceHeld(s, source, now) then s.sources[source].blockedUntil.value - now else 0;
    var all := if GlobalHeld(s, now) then s.global.value.blockedUntil.value - now else 0;
    if mine >= all then mine else all
  }

  /** Failures that still count, of a source that is not blocked. */
  function Counted(s: State, source: Source, now: int, p: Policy): nat {
    if source !in s.sources || s.sources[source].count == 5
      || s.sources[source].lastFailure + p.failureResetAfter <= now then 0
    else s.sources[source].count
  }

  /** How long the n-th failure in a row blocks its source. */
  function BlockFor(n: nat, p: Policy): Option<int> {
    if n == 3 then Some(p.cooldownAfterThree)
    else if n == 4 then Some(p.cooldownAfterFour)
    else if n == 5 then Some(p.lockAfterFive)
    else None
  }

  function BlockEnd(n: nat, now: int, p: Policy): Option<int> {
    if BlockFor(n, p).Some? then Some(now + BlockFor(n, p).value) else None
  }

  /** The breaker without a block that has ended and without a window that has passed; blocked, it stays. */
  predicate GlobalAfterCheck(before: Option<GlobalRow>, after: Option<GlobalRow>, now: int, p: Policy) {
    if before.None? then after.None?
    else
      var g := before.value;
      var ended := g.blockedUntil.Some? && g.blockedUntil.value <= now;
      if ended || (g.blockedUntil.None? && g.windowStarted + p.globalWindow <= now)
      then after == Some(GlobalRow(now, 0, None)) else after == before
  }

  /** One more source lock, which blocks everybody once there are as many as the limit. */
  predicate GlobalAfterLock(checked: Option<GlobalRow>, after: Option<GlobalRow>, now: int, p: Policy) {
    after.Some?
    && after.value.windowStarted == (if checked.None? then now else checked.value.windowStarted)
    && after.value.sourceLocks == (if checked.None? then 1 else checked.value.sourceLocks + 1)
    && after.value.blockedUntil
       == if after.value.sourceLocks >= p.globalSourceLockLimit then Some(now + p.globalBlockDuration) else None
  }

  /** Only the source's own row may differ. */
  predicate OthersSame(before: State, after: State, source: Source) {
    before.sources - {source} == after.sources - {source}
  }

  /** A check that fails tells nothing and changes nothing. */
  lemma UncheckedTellsNothing(s: State, source: Source, now: int, verified: bool, p: Policy)
    ensures Evaluate(s, source, now, verified, CheckFails, p) == Verdict(s, Unavailable)
  {
  }

  /**
   In every state an attempt is told that it is blocked exactly when the source's or the global end lies ahead, verified
   or not, with the longer time that remains; and the counter of a blocked source stays.
   */
  lemma BlockedExactly(s: State, source: Source, now: int, verified: bool, fault: Fault, p: Policy)
    requires fault != CheckFails
    ensures var v := Evaluate(s, source, now, verified, fault, p);
            && (v.disposition.Blocked? <==> SourceHeld(s, source, now) || GlobalHeld(s, now))
            && (v.disposition.Blocked? ==> v.disposition.retryAfter == Remaining(s, source, now))
            && (v.disposition.Blocked? ==> OthersSame(s, v.state, source))
            && (SourceHeld(s, source, now) ==>
                 source in v.state.sources && v.state.sources[source] == s.sources[source])
            && (v.disposition.Blocked? && source in v.state.sources ==>
                 source in s.sources && v.state.sources[source] == s.sources[source])
            && (v.disposition.Blocked? && source in s.sources && source !in v.state.sources ==>
                 Counted(s, source, now, p) == 0)
            && (v.disposition.Blocked? ==> GlobalAfterCheck(s.global, v.state.global, now, p))
  {
  }

  /** Nobody is held: the right password forgets the source, a wrong one counts and blocks, an error changes neither. */
  lemma OpenExactly(s: State, source: Source, now: int, verified: bool, fault: Fault, p: Policy)
    requires p.Validate() && fault != CheckFails && !SourceHeld(s, source, now) && !GlobalHeld(s, now)
    ensures var v := Evaluate(s, source, now, verified, fault, p);
            var n := Counted(s, source, now, p) + 1;
            var checked := CheckGlobal(s.global, now, p);
            && v.disposition == (if fault == WriteFails then Unavailable
                                 else if verified then Authenticated else Rejected)
            && OthersSame(s, v.state, source) && GlobalAfterCheck(s.global, checked, now, p)
            && (v.disposition == Authenticated ==> source !in v.state.sources && v.state.global == checked)
            && (v.disposition == Rejected ==>
                 source in v.state.sources && v.state.sources[source] == Row(n, BlockEnd(n, now, p), now, now))
            && (v.disposition == Rejected ==>
                 if n == 5 then GlobalAfterLock(checked, v.state.global, now, p) else v.state.global == checked)
            && (v.disposition == Unavailable && source in v.state.sources ==>
                 source in s.sources && v.state.sources[source] == s.sources[source])
  {
  }

  // ----- What is logged -----

  /** A check reports an unlocked source exactly when it drops a locked one, and a release exactly as a block ends. */
  lemma CheckReports(s: State, source: Source, now: int, p: Policy)
    ensures var c := Check(s, source, now, p);
            && CheckSourceTransitions(s, source, now)
               == (if source in s.sources && source !in c.sources && s.sources[source].count == 5
                   then [SourceUnlocked(5)] else [])
            && CheckGlobalTransitions(s.global, now)
               == (if s.global.Some? && s.global.value.blockedUntil.Some? && c.global.value.blockedUntil.None?
                   then [GlobalReleased] else [])
  {
  }

  /** A failure reports the block that it stores, and the breaker when the lock of the source has armed it. */
  lemma FailureReports(s: State, source: Source, now: int, p: Policy)
    requires source in s.sources ==> s.sources[source].count <= 5
    ensures var f := RecordFailure(s, source, now, p);
            source in f.sources &&
            var row := f.sources[source];
            FailureTransitions(s, source, now, p) ==
            if row.blockedUntil.None? then []
            else if row.count < 5 then [SourceCooldown(row.count, row.blockedUntil.value)]
            else if f.global.None? || f.global.value.blockedUntil.None? then [SourceLocked(5, row.blockedUntil.value)]
            else [SourceLocked(5, row.blockedUntil.value),
                  GlobalArmed(f.global.value.blockedUntil.value, f.global.value.sourceLocks)]
  {
  }

  // ----- Streaks over runs -----

  /** The step tells an attempt by the source that its credentials are wrong. */
  ghost predicate Rejects(ops: seq<Op>, source: Source, p: Policy)
    requires ops != []
  {
    Told(Run(ops[..|ops| - 1], p), ops[|ops| - 1], source, p) == Some(Rejected)
  }

  ghost predicate Admits(ops: seq<Op>, source: Source, p: Policy)
    requires ops != []
  {
    Told(Run(ops[..|ops| - 1], p), ops[|ops| - 1], source, p) == Some(Authenticated)
  }

  /** The step is a cleanup that removes the source. */
  ghost predicate Forgets(ops: seq<Op>, source: Source, p: Policy)
    requires ops != []
  {
    var s, op := Run(ops[..|ops| - 1], p), ops[|ops| - 1];
    op.Sweep? && source in op.victims && source in s.sources && s.sources[source].updated + p.sourceRetention <= op.now
  }

  /** When the source was last rejected. */
  ghost function LastRejected(ops: seq<Op>, source: Source, p: Policy): int {
    if ops == [] then 0
    else if Rejects(ops, source, p) then ops[|ops| - 1].now
    else LastRejected(ops[..|ops| - 1], source, p)
  }

  /**
   How many rejections the running streak of a source has: a success, a cleanup, a pause and a fifth rejection end a
   streak.
   */
  ghost function Streak(ops: seq<Op>, source: Source, p: Policy): nat {
    if ops == [] then 0
    else
      var most, now := ops[..|ops| - 1], ops[|ops| - 1].now;
      var n := Streak(most, source, p);
      if Rejects(ops, source, p) then
        if n == 5 || LastRejected(most, source, p) + p.failureResetAfter <= now then 1 else n + 1
      else if Admits(ops, source, p) || Forgets(ops, source, p) then 0
      else n
  }

  /** The row of a source is its streak, unless the streak is over. */
  ghost predicate StreakKept(row: Option<Row>, n: nat, last: int, now: int, p: Policy) {
    && (n > 0 ==> last <= now)
    && match row
       case Some(r) => r == Row(n, BlockEnd(n, last, p), last, last) && 1 <= n <= 5
       case None => n == 0 || n == 5 || last + p.failureResetAfter <= now
  }

  lemma RejectedKeeps(s: State, source: Source, n: nat, last: int, before: int, op: Op, p: Policy)
    requires p.Validate() && StreakKept(RowOf(s, source), n, last, before, p) && before <= op.now
    requires Told(s, op, source, p) == Some(Rejected)
    ensures var m := if n == 5 || last + p.failureResetAfter <= op.now then 1 else n + 1;
            StreakKept(RowOf(Apply(s, op, p), source), m, op.now, op.now, p)
  {
    hide Evaluate, GlobalAfterCheck, GlobalAfterLock, OthersSame;
    UncheckedTellsNothing(s, source, op.now, op.verified, p);
    if op.fault != CheckFails {
      BlockedExactly(s, source, op.now, op.verified, op.fault, p);
      OpenExactly(s, source, op.now, op.verified, op.fault, p);
    }
  }

  lemma OwnKeeps(s: State, source: Source, n: nat, last: int, before: int, op: Op, p: Policy)
    requires p.Validate() && StreakKept(RowOf(s, source), n, last, before, p) && before <= op.now
    requires op.Attempt? && op.source == source && Told(s, op, source, p) != Some(Rejected)
    ensures var m := if Told(s, op, source, p) == Some(Authenticated) then 0 else n;
            StreakKept(RowOf(Apply(s, op, p), source), m, last, op.now, p)
  {
    hide Evaluate, GlobalAfterCheck, GlobalAfterLock, OthersSame, BlockEnd;
    UncheckedTellsNothing(s, source, op.now, op.verified, p);
    if op.fault != CheckFails {
      BlockedExactly(s, source, op.now, op.verified, op.fault, p);
      if !SourceHeld(s, source, op.now) && !GlobalHeld(s, op.now) {
        OpenExactly(s, source, op.now, op.verified, op.fault, p);
      }
      GoneIsStale(s, source, op.now, op.verified, op.fault, p);
    }
  }

  /** A check forgets only what counts no more. */
  lemma GoneIsStale(s: State, source: Source, now: int, verified: bool, fault: Fault, p: Policy)
    ensures var v := Evaluate(s, source, now, verified, fault, p);
            source in s.sources && source !in v.state.sources && v.disposition != Authenticated ==>
              Counted(s, source, now, p) == 0
  {
  }

  lemma OtherKeeps(s: State, source: Source, n: nat, last: int, before: int, op: Op, p: Policy)
    requires p.Validate() && StreakKept(RowOf(s, source), n, last, before, p) && before <= op.now
    requires !(op.Attempt? && op.source == source)
    ensures var forgets := op.Sweep? && source in op.victims && source in s.sources
                           && s.sources[source].updated + p.sourceRetention <= op.now;
            StreakKept(RowOf(Apply(s, op, p), source), if forgets then 0 else n, last, op.now, p)
  {
    hide BlockEnd;
  }

  lemma {:induction false} StreakKeeps(ops: seq<Op>, source: Source, p: Policy)
    requires p.Validate() && Timed(ops)
    ensures StreakKept(RowOf(Run(ops, p), source), Streak(ops, source, p), LastRejected(ops, source, p),
                       LastTime(ops), p)
  {
    hide StreakKept, Apply, Evaluate;
    if ops == [] {
      NoStreak(0, p);
    } else {
      var most, op := ops[..|ops| - 1], ops[|ops| - 1];
      StreakKeeps(most, source, p);
      var s, n, last := Run(most, p), Streak(most, source, p), LastRejected(most, source, p);
      if most == [] { NoStreak(op.now, p); }
      var before := if most == [] then op.now else LastTime(most);
      if Rejects(ops, source, p) {
        RejectedKeeps(s, source, n, last, before, op, p);
      } else if op.Attempt? && op.source == source {
        OwnKeeps(s, source, n, last, before, op, p);
      } else {
        OtherKeeps(s, source, n, last, before, op, p);
      }
    }
  }

  lemma NoStreak(now: int, p: Policy)
    ensures StreakKept(None, 0, 0, now, p)
  {
  }

  /** The third, fourth and fifth rejection of a streak block for as long as the policy says, the others not at all. */
  lemma RejectionBlocks(ops: seq<Op>, source: Source, p: Policy)
    requires p.Validate() && Timed(ops) && ops != [] && Rejects(ops, source, p)
    ensures var s, now := Run(ops, p), ops[|ops| - 1].now;
            source in s.sources && s.sources[source].blockedUntil == BlockEnd(Streak(ops, source, p), now, p)
  {
    StreakKeeps(ops, source, p);
    hide Run, Streak, BlockEnd;
    var most, op := ops[..|ops| - 1], ops[|ops| - 1];
    RejectedIsStored(Run(most, p), source, op, p);
    RunNext(ops, p);
  }

  lemma RunNext(ops: seq<Op>, p: Policy)
    requires ops != []
    ensures Run(ops, p) == Apply(Run(ops[..|ops| - 1], p), ops[|ops| - 1], p)
  {
    hide Apply;
  }

  lemma RejectedIsStored(s: State, source: Source, op: Op, p: Policy)
    requires p.Validate() && Told(s, op, source, p) == Some(Rejected)
    ensures source in Apply(s, op, p).sources
  {
  }

  // ----- Blocks over runs -----

  /** The row of a source that a rejection at some moment has blocked for a while. */
  predicate Locked(s: State, source: Source, row: Row) {
    source in s.sources && s.sources[source] == row
  }

  lemma LockedStays(s: State, source: Source, row: Row, op: Op, p: Policy)
    requires p.Validate() && Locked(s, source, row) && row.blockedUntil.Some? && op.now < row.blockedUntil.value
    requires op.now < row.updated + p.sourceRetention
    ensures Locked(Apply(s, op, p), source, row)
  {
    hide GlobalAfterCheck, GlobalAfterLock;
    if op.Attempt? {
      UncheckedTellsNothing(s, op.source, op.now, op.verified, p);
      if op.fault != CheckFails { LockedThrough(s, source, op, p); }
    }
  }

  lemma LockedThrough(s: State, source: Source, op: Op, p: Policy)
    requires op.Attempt? && SourceHeld(s, source, op.now)
    ensures var n := Apply(s, op, p); source in n.sources && n.sources[source] == s.sources[source]
  {
  }

  lemma {:induction false} LockedUntil(ops: seq<Op>, i: nat, source: Source, row: Row, p: Policy)
    requires p.Validate() && Timed(ops) && i <= |ops| && Locked(Run(ops[..i], p), source, row)
    requires row.blockedUntil.Some?
    requires i < |ops| ==> ops[|ops| - 1].now < Min(row.blockedUntil.value, row.updated + p.sourceRetention)
    ensures Locked(Run(ops, p), source, row)
    decreases |ops|
  {
    hide Locked, Apply;
    if i == |ops| {
      assert ops[..i] == ops;
    } else {
      var most := ops[..|ops| - 1];
      assert most[..i] == ops[..i];
      LockedUntil(most, i, source, row, p);
      LockedStays(Run(most, p), source, row, ops[|ops| - 1], p);
    }
  }

  /**
   Once a rejection has blocked its source, every attempt of that source before the block or the retention runs out is
   told so, whatever its credentials and whatever else happens, with at least the time that remains.
   */
  lemma BlockHolds(ops: seq<Op>, i: nat, j: nat, source: Source, p: Policy)
    requires p.Validate() && Timed(ops) && 0 < i <= j < |ops| && Rejects(ops[..i], source, p)
    requires var n := Streak(ops[..i], source, p);
             && BlockFor(n, p).Some?
             && ops[j].now < ops[i - 1].now + Min(BlockFor(n, p).value, p.sourceRetention)
    requires ops[j].Attempt? && ops[j].source == source && ops[j].fault != CheckFails
    ensures var told := Told(Run(ops[..j], p), ops[j], source, p);
            && told.Some? && told.value.Blocked?
            && told.value.retryAfter
               >= ops[i - 1].now + BlockFor(Streak(ops[..i], source, p), p).value - ops[j].now
  {
    hide Run, Streak, Evaluate, Rejects;
    var before, until := ops[..i], ops[..j];
    assert until[..i] == before && (i < j ==> until[|until| - 1] == ops[j - 1]);
    RejectionBlocks(before, source, p);
    RejectedAt(before, source, p);
    var row := Run(before, p).sources[source];
    LockedUntil(until, i, source, row, p);
    BlockedExactly(Run(until, p), source, ops[j].now, ops[j].verified, ops[j].fault, p);
  }

  lemma RejectedAt(ops: seq<Op>, source: Source, p: Policy)
    requires p.Validate() && ops != [] && Rejects(ops, source, p)
    ensures source in Run(ops, p).sources && Run(ops, p).sources[source].updated == ops[|ops| - 1].now
  {
  }
}
