/**
 Cooldowns of accounts per model: rows that expire lazily, an exponential
 backoff for rate limits, and the manager that decides what to write.
 Times are Unix seconds.
 */
module CooldownSteps {
  import opened Basics
  import opened Provider

  const RATE_LIMIT := "rate_limit"

  datatype Key = Key(account: string, model: string)

  /** A missing error class is "". */
  datatype Row = Row(until: Option<int>, backoff: int, class_: string, lastErrorAt: Option<int>)

  type Table = map<Key, Row>

  predicate Running(row: Row, now: int) {
    row.until.Some? && row.until.value > now
  }

  /** A row once the cooldown it may have has been dropped for being over. */
  function Settle(row: Row, now: int): Row {
    if row.until.Some? && row.until.value <= now
    then row.(until := None, backoff := if row.class_ == RATE_LIMIT then row.backoff else 0) else row
  }

  function Get(rows: Table, key: Key, now: int): Table {
    if key in rows then rows[key := Settle(rows[key], now)] else rows
  }

  function Found(rows: Table, key: Key, now: int): Option<Row> {
    if key in rows then Some(Settle(rows[key], now)) else None
  }

  function Ready(rows: Table, key: Key): Table {
    rows[key := if key in rows then rows[key].(until := None, backoff := 0) else Row(None, 0, "", None)]
  }

  /** The delays of the first six levels, as the update statement lists them. */
  function Delay(backoff: int): int {
    if backoff <= 0 then 60
    else if backoff == 1 then 120
    else if backoff == 2 then 240
    else if backoff == 3 then 480
    else if backoff == 4 then 960
    else 1800
  }

  /** A cooldown that is still running is kept; otherwise the next level begins. */
  function Advanced(row: Option<Row>, class_: string, now: int): Row {
    match row
    case None => Row(Some(now + 60), 1, class_, Some(now))
    case Some(r) =>
      if Running(r, now) then r.(class_ := class_, lastErrorAt := Some(now))
      else Row(Some(now + Delay(r.backoff)), Min(r.backoff + 1, 6), class_, Some(now))
  }

  function RowOf(rows: Table, key: Key): Option<Row> {
    if key in rows then Some(rows[key]) else None
  }

  function AdvanceRateLimit(rows: Table, key: Key, class_: string, now: int): Table {
    rows[key := Advanced(RowOf(rows, key), class_, now)]
  }

  predicate Over(row: Row, now: int) {
    row.until.Some? && row.until.value <= now
  }

  ghost function AllOver(rows: Table, now: int): set<Key> {
    set key | key in rows && Over(rows[key], now)
  }

  function PromoteExpired(rows: Table, batch: set<Key>, now: int): Table {
    map key | key in rows :: if key in batch then Settle(rows[key], now) else rows[key]
  }

  // ----- The manager -----

  datatype CooldownScope = CooldownNone | CooldownModel | CooldownAccount

  datatype Classification = Classification(
    class_: string, retryNext: bool, refreshSame: bool, disableAccount: bool, reloginRequired: bool,
    explicitRetryAfter: bool, scope: CooldownScope, cooldown: int, retryAfter: Option<int>)

  /** What is written for a failure, if anything. */
  datatype Write = NoWrite | MarkRelogin | Disable | Advance(key: Key) | Put(key: Key, row: Row)

  function ScopeOf(model: string, c: Classification): string {
    if c.scope == CooldownAccount then ANY_MODEL else model
  }

  function WriteFor(account: string, model: string, c: Classification, now: int): Write {
    if c.reloginRequired then MarkRelogin
    else if c.disableAccount then Disable
    else if c.scope == CooldownNone then NoWrite
    else if c.cooldown <= 0 && c.class_ != RATE_LIMIT then NoWrite
    else if c.class_ == RATE_LIMIT && c.explicitRetryAfter && c.cooldown <= 0 then NoWrite
    else
      var key := Key(account, ScopeOf(model, c));
      if c.class_ == RATE_LIMIT && !c.explicitRetryAfter then Advance(key)
      else Put(key, Row(Some(now + c.cooldown), 0, c.class_, Some(now)))
  }

  function Applied(rows: Table, account: string, model: string, c: Classification, now: int): Table {
    match WriteFor(account, model, c, now)
    case Advance(key) => AdvanceRateLimit(rows, key, c.class_, now)
    case Put(key, row) => rows[key := row]
    case _ => rows
  }
}

/** The repository and the manager, proved against the functions on their tables. */
module Cooldowns {
  import opened Basics
  import opened Steps = CooldownSteps

  const CLEANUP_BATCH_SIZE := 500

  class CooldownRepository {
    var rows: Table

    constructor ()
      ensures rows == map[]
    {
      rows := map[];
    }

    method Put(key: Key, row: Row)
      modifies this
      ensures rows == old(rows)[key := row]
    {
      rows := rows[key := row];
    }

    method Get(key: Key, now: int) returns (found: Option<Row>)
      modifies this
      ensures rows == Steps.Get(old(rows), key, now)
      ensures found == Found(old(rows), key, now)
    {
      if key in rows && rows[key].until.Some? && rows[key].until.value <= now {
        rows := rows[key := rows[key].(until := None,
                                       backoff := if rows[key].class_ == RATE_LIMIT then rows[key].backoff else 0)];
      }
      if key !in rows { return None; }
      return Some(rows[key]);
    }

    method Ready(key: Key)
      modifies this
      ensures rows == Steps.Ready(old(rows), key)
    {
      if key in rows {
        rows := rows[key := rows[key].(until := None, backoff := 0)];
      } else {
        rows := rows[key := Row(None, 0, "", None)];
      }
    }

    method AdvanceRateLimit(key: Key, class_: string, now: int) returns (row: Row)
      modifies this
      ensures rows == Steps.AdvanceRateLimit(old(rows), key, class_, now) && row == rows[key]
    {
      if key !in rows {
        row := Row(Some(now + 60), 1, class_, Some(now));
      } else {
        row := rows[key];
        if row.until.None? || row.until.value <= now {
          row := row.(until := Some(now + Delay(row.backoff)), backoff := Min(row.backoff + 1, 6));
        }
        row := row.(class_ := class_, lastErrorAt := Some(now));
      }
      rows := rows[key := row];
    }

    /** Settles a batch of expired rows, in no particular order. */
    method PromoteExpired(now: int) returns (count: nat)
      modifies this
      ensures exists batch | batch <= AllOver(old(rows), now) ::
                rows == Steps.PromoteExpired(old(rows), batch, now)
                  && count == |batch| == Min(CLEANUP_BATCH_SIZE, |AllOver(old(rows), now)|)
    {
      hide Settle, Over;
      var left := set key | key in rows && Over(rows[key], now);
      ghost var all := left;
      ghost var batch: set<Key> := {};
      ghost var before := rows;
      count := 0;
      NoneSettled(before, now);
      hide SettledExactly;
      while left != {} && count < CLEANUP_BATCH_SIZE
        invariant left !! batch && left + batch == all && |batch| == count <= CLEANUP_BATCH_SIZE
        invariant rows.Keys == before.Keys && SettledExactly(before, rows, batch, now)
        decreases |left|
      {
        var key := Pick(left);
        SettleNext(before, rows, batch, key, now);
        rows := rows[key := Settle(rows[key], now)];
        left := left - {key};
        batch := batch + {key};
        count := count + 1;
      }
      SplitSize(all, left, batch);
      BatchSettled(before, rows, batch, now);
    }
  }

  /** The rows of a batch have been settled, and no others. */
  ghost predicate SettledExactly(before: Table, after: Table, batch: set<Key>, now: int) {
    && after.Keys == before.Keys
    && forall key :: key in after ==> after[key] == if key in batch then Settle(before[key], now) else before[key]
  }

  lemma NoneSettled(rows: Table, now: int)
    ensures SettledExactly(rows, rows, {}, now)
  {
  }

  lemma SettleNext(before: Table, rows: Table, batch: set<Key>, key: Key, now: int)
    requires SettledExactly(before, rows, batch, now) && key in rows && key !in batch
    ensures SettledExactly(before, rows[key := Settle(rows[key], now)], batch + {key}, now)
  {
    hide Settle;
    var more := batch + {key};
    assert forall other :: other in more <==> other in batch || other == key;
  }

  lemma BatchSettled(before: Table, after: Table, batch: set<Key>, now: int)
    requires SettledExactly(before, after, batch, now)
    ensures after == Steps.PromoteExpired(before, batch, now)
  {
    hide Settle;
  }

  datatype AccountRow = AccountRow(caption: string, enabled: bool, relogin: bool)

  class AccountRepository {
    var accounts: map<string, AccountRow>

    constructor ()
      ensures accounts == map[]
    {
      accounts := map[];
    }

    /** Changes an account that exists. */
    method Change(id: string, enabled: bool, relogin: bool) returns (found: bool)
      modifies this
      ensures found == (id in old(accounts))
      ensures accounts == if found then old(accounts)[id := AccountRow(old(accounts)[id].caption, enabled, relogin)]
              else old(accounts)
    {
      found := id in accounts;
      if found { accounts := accounts[id := AccountRow(accounts[id].caption, enabled, relogin)]; }
    }
  }

  class CooldownManager {
    const states: CooldownRepository
    const accounts: AccountRepository

    constructor (states: CooldownRepository, accounts: AccountRepository)
      ensures this.states == states && this.accounts == accounts
    {
      this.states, this.accounts := states, accounts;
    }

    /** At most one write: to the account, or to the cooldown of its scope. */
    method Apply(account: string, model: string, c: Classification, now: int) returns (ok: bool)
      modifies states, accounts
      ensures states.rows == Applied(old(states.rows), account, model, c, now)
      ensures var before := old(accounts.accounts);
              var write := WriteFor(account, model, c, now);
              && ok == (write in {MarkRelogin, Disable} ==> account in before)
              && accounts.accounts ==
                   if account in before && write == MarkRelogin
                   then before[account := AccountRow(before[account].caption, false, true)]
                   else if account in before && write == Disable
                   then before[account := AccountRow(before[account].caption, false, before[account].relogin)]
                   else before
    {
      if c.reloginRequired {
        ok := accounts.Change(account, false, true);
        return;
      }
      if c.disableAccount {
        if account !in accounts.accounts { return false; }
        ok := accounts.Change(account, false, accounts.accounts[account].relogin);
        return;
      }
      ok := true;
      if c.scope == CooldownNone { return; }
      if c.cooldown <= 0 && c.class_ != RATE_LIMIT { return; }
      var key := Key(account, ScopeOf(model, c));
      if c.class_ == RATE_LIMIT && c.explicitRetryAfter && c.cooldown <= 0 { return; }
      if c.class_ == RATE_LIMIT && !c.explicitRetryAfter {
        var row := states.AdvanceRateLimit(key, c.class_, now);
        return;
      }
      states.Put(key, Row(Some(now + c.cooldown), 0, c.class_, Some(now)));
    }

    method Success(account: string, model: string)
      modifies states
      ensures states.rows == Steps.Ready(old(states.rows), Key(account, model))
    {
      states.Ready(Key(account, model));
    }
  }
}

/** Sweeps cannot be noticed, and backoff grows as documented. */
module CooldownLaws {
  import opened Basics
  import opened CooldownSteps

  /** What happens to cooldowns: reads, the manager's writes, and sweeps of some expired rows. */
  datatype Op =
    | Read(key: Key, now: int)
    | Apply(account: string, model: string, c: Classification, now: int)
    | Success(account: string, model: string, now: int)
    | Sweep(batch: set<Key>, now: int)

  ghost function Step(rows: Table, op: Op): Table {
    match op
    case Read(key, now) => Get(rows, key, now)
    case Apply(account, model, c, now) => Applied(rows, account, model, c, now)
    case Success(account, model, _) => Ready(rows, Key(account, model))
    case Sweep(batch, now) => PromoteExpired(rows, batch * AllOver(rows, now), now)
  }

  /** What a step tells its caller: the row read, or the row that a rate limit leaves. */
  ghost function Told(rows: Table, op: Op): Option<Row> {
    match op
    case Read(key, now) => Found(rows, key, now)
    case Apply(account, model, c, now) =>
      var write := WriteFor(account, model, c, now);
      if write.Advance? then Some(Step(rows, op)[write.key]) else None
    case _ => None
  }

  ghost function Run(ops: seq<Op>): Table {
    if ops == [] then map[] else Step(Run(ops[..|ops| - 1]), ops[|ops| - 1])
  }

  /** The answers of all steps but the sweeps. */
  ghost function Answers(ops: seq<Op>): seq<Option<Row>> {
    if ops == [] then []
    else
      var most, op := ops[..|ops| - 1], ops[|ops| - 1];
      Answers(most) + if op.Sweep? then [] else [Told(Run(most), op)]
  }

  function WithoutSweeps(ops: seq<Op>): seq<Op> {
    if ops == [] then []
    else WithoutSweeps(ops[..|ops| - 1]) + if ops[|ops| - 1].Sweep? then [] else [ops[|ops| - 1]]
  }

  predicate Timed(ops: seq<Op>) {
    forall i, j :: 0 <= i < j < |ops| ==> ops[i].now <= ops[j].now
  }

  /** Only rate limits leave a backoff level behind. */
  predicate RowValid(row: Row) {
    row.backoff >= 0 && (row.backoff > 0 ==> row.class_ == RATE_LIMIT)
  }

  ghost predicate TableValid(rows: Table) {
    forall key :: key in rows ==> RowValid(rows[key])
  }

  /** Two rows that nobody can tell apart from now on. */
  predicate Alike(a: Row, b: Row, now: int) {
    Settle(a, now) == Settle(b, now)
  }

  ghost predicate AllAlike(a: Table, b: Table, now: int) {
    a.Keys == b.Keys && forall key :: key in a ==> Alike(a[key], b[key], now)
  }

  lemma StepValid(rows: Table, op: Op)
    requires TableValid(rows)
    ensures TableValid(Step(rows, op))
  {
  }

  lemma AdvancedAlike(a: Row, b: Row, class_: string, now: int)
    requires RowValid(a) && RowValid(b) && Alike(a, b, now)
    ensures Advanced(Some(a), class_, now) == Advanced(Some(b), class_, now)
  {
  }

  lemma SettleTwice(row: Row, then': int, now: int)
    requires then' <= now
    ensures Settle(Settle(row, then'), now) == Settle(row, now)
  {
  }

  lemma LaterAlike(a: Row, b: Row, then': int, now: int)
    requires Alike(a, b, then') && then' <= now
    ensures Alike(a, b, now)
  {
    SettleTwice(a, then', now);
    SettleTwice(b, then', now);
  }

  /** The same step on alike tables gives the same answer and alike tables. */
  lemma StepAlike(a: Table, b: Table, op: Op)
    requires TableValid(a) && TableValid(b) && AllAlike(a, b, op.now) && !op.Sweep?
    ensures Told(a, op) == Told(b, op) && AllAlike(Step(a, op), Step(b, op), op.now)
  {
    match op {
      case Read(key, now) => ReadAlike(a, b, key, now);
      case Apply(account, model, c, now) => ApplyAlike(a, b, account, model, c, now);
      case Success(account, model, now) => ReadyAlike(a, b, Key(account, model), now);
    }
    hide AllAlike, Get, Ready, Applied, TableValid;
  }

  lemma ReadAlike(a: Table, b: Table, key: Key, now: int)
    requires AllAlike(a, b, now)
    ensures Found(a, key, now) == Found(b, key, now) && AllAlike(Get(a, key, now), Get(b, key, now), now)
  {
    if key in a {
      SettleTwice(a[key], now, now);
      SettleTwice(b[key], now, now);
    }
    hide Settle;
  }

  lemma ApplyAlike(a: Table, b: Table, account: string, model: string, c: Classification, now: int)
    requires TableValid(a) && TableValid(b) && AllAlike(a, b, now)
    ensures Told(a, Apply(account, model, c, now)) == Told(b, Apply(account, model, c, now))
    ensures AllAlike(Applied(a, account, model, c, now), Applied(b, account, model, c, now), now)
  {
    var write := WriteFor(account, model, c, now);
    if write.Advance? && write.key in a { AdvancedAlike(a[write.key], b[write.key], c.class_, now); }
    hide Settle, Advanced, WriteFor;
  }

  lemma ReadyAlike(a: Table, b: Table, key: Key, now: int)
    requires AllAlike(a, b, now)
    ensures AllAlike(Ready(a, key), Ready(b, key), now)
  {
  }

  lemma SweepAlike(a: Table, b: Table, op: Op)
    requires AllAlike(a, b, op.now) && op.Sweep?
    ensures AllAlike(Step(a, op), b, op.now)
  {
    forall key | key in a ensures Alike(Step(a, op)[key], b[key], op.now) {
      SettleTwice(a[key], op.now, op.now);
    }
  }

  lemma AllLaterAlike(a: Table, b: Table, then': int, now: int)
    requires AllAlike(a, b, then') && then' <= now
    ensures AllAlike(a, b, now)
  {
    forall key | key in a ensures Alike(a[key], b[key], now) {
      LaterAlike(a[key], b[key], then', now);
    }
  }

  function LastTime(ops: seq<Op>): int {
    if ops == [] then 0 else ops[|ops| - 1].now
  }

  lemma {:induction false} RunsAlike(ops: seq<Op>)
    requires Timed(ops)
    ensures TableValid(Run(ops)) && TableValid(Run(WithoutSweeps(ops)))
    ensures ops != [] ==> AllAlike(Run(ops), Run(WithoutSweeps(ops)), LastTime(ops))
    ensures ops == [] ==> Run(ops) == Run(WithoutSweeps(ops))
    ensures Answers(WithoutSweeps(ops)) == Answers(ops)
  {
    hide Step, Told, Alike, RowValid;
    if ops != [] {
      var most, op := ops[..|ops| - 1], ops[|ops| - 1];
      RunsAlike(most);
      var a, b := Run(most), Run(WithoutSweeps(most));
      if most == [] {
        SameAlike(op.now);
      } else {
        AllLaterAlike(a, b, LastTime(most), op.now);
      }
      StepValid(a, op);
      StepValid(b, op);
      if op.Sweep? {
        SweepAlike(a, b, op);
        assert WithoutSweeps(most) + [] == WithoutSweeps(most);
        assert Answers(most) + [] == Answers(most);
      } else {
        StepAlike(a, b, op);
        assert (WithoutSweeps(most) + [op])[..|WithoutSweeps(most)|] == WithoutSweeps(most);
      }
    }
  }

  lemma SameAlike(now: int)
    ensures AllAlike(map[], map[], now)
  {
  }

  /** On a clock that never goes back, sweeps may be added anywhere, in any batches: every answer stays the same. */
  lemma SweepsInvisible(ops: seq<Op>)
    requires Timed(ops)
    ensures Answers(ops) == Answers(WithoutSweeps(ops))
  {
    RunsAlike(ops);
  }

  // ----- The backoff law -----

  function Power(n: nat): nat {
    if n == 0 then 1 else 2 * Power(n - 1)
  }

  /** The cooldown after so many rate limits in a row: 60 seconds, doubling with each, 1800 at most. */
  function DelayAfter(count: nat): int
    requires count > 0
  {
    Min(60 * Power(Min(count, 6) - 1), 1800)
  }

  /** Rate limits since the last reset that did not fall into a running cooldown, and the end of the latest cooldown. */
  datatype Streak = Streak(count: nat, until: Option<int>)

  const FRESH_STREAK := Streak(0, None)

  function Streaked(k: Streak, op: Op, key: Key): Streak {
    match op
    case Apply(account, model, c, now) =>
      (match WriteFor(account, model, c, now)
       case Advance(at) =>
         if at != key || (k.until.Some? && k.until.value > now) then k
         else Streak(k.count + 1, Some(now + DelayAfter(k.count + 1)))
       case Put(at, row) => if at == key then Streak(0, row.until) else k
       case _ => k)
    case Success(account, model, _) => if Key(account, model) == key then FRESH_STREAK else k
    case _ => k
  }

  function StreakOf(ops: seq<Op>, key: Key): Streak {
    if ops == [] then FRESH_STREAK else Streaked(StreakOf(ops[..|ops| - 1], key), ops[|ops| - 1], key)
  }

  lemma DelaysDouble(level: nat)
    requires level < 6
    ensures Delay(level) == DelayAfter(level + 1)
  {
    assert Power(0) == 1 && Power(1) == 2 && Power(2) == 4 && Power(3) == 8;
    assert Power(4) == 16 && Power(5) == 32;
  }

  /** The row that a streak should have: its level, and its cooldown while that runs. */
  predicate Follows(row: Option<Row>, k: Streak, now: int) {
    match row
    case None => k == FRESH_STREAK
    case Some(r) =>
      && RowValid(r) && r.backoff == Min(k.count, 6)
      && (k.until.Some? && k.until.value > now ==> r.until == k.until)
      && (k.until.None? || k.until.value <= now ==> !Running(r, now))
  }

  lemma LaterFollows(row: Option<Row>, k: Streak, then': int, now: int)
    requires Follows(row, k, then') && then' <= now
    ensures Follows(row, k, now)
  {
  }

  lemma RateLimitFollows(row: Option<Row>, k: Streak, now: int)
    requires Follows(row, k, now)
    ensures var next := if k.until.Some? && k.until.value > now then k
                        else Streak(k.count + 1, Some(now + DelayAfter(k.count + 1)));
            Follows(Some(Advanced(row, RATE_LIMIT, now)), next, now)
  {
    hide Power, DelayAfter;
    if k.count < 6 { DelaysDouble(k.count); }
    LongStreak(k.count);
  }

  lemma ReadFollows(row: Row, k: Streak, now: int)
    requires Follows(Some(row), k, now)
    ensures Follows(Some(Settle(row, now)), k, now)
  {
  }

  lemma WriteFollows(key: Key, account: string, model: string, c: Classification, now: int)
    ensures var write := WriteFor(account, model, c, now);
            && (write.Advance? ==> c.class_ == RATE_LIMIT)
            && (write.Put? ==> write.row.until.Some? && Follows(Some(write.row), Streak(0, write.row.until), now))
  {
  }

  lemma StepFollows(rows: Table, op: Op, key: Key, k: Streak, then': int)
    requires Follows(RowOf(rows, key), k, then') && then' <= op.now
    ensures Follows(RowOf(Step(rows, op), key), Streaked(k, op, key), op.now)
  {
    LaterFollows(RowOf(rows, key), k, then', op.now);
    match op {
      case Read(_, now) => if key in rows { ReadFollows(rows[key], k, now); }
      case Apply(account, model, c, now) =>
        WriteFollows(key, account, model, c, now);
        RateLimitFollows(RowOf(rows, key), k, now);
      case Success(_, _, now) => ReadyFollows(RowOf(rows, key), k, now);
      case Sweep(_, now) => if key in rows { ReadFollows(rows[key], k, now); }
    }
    hide Follows, Advanced, Settle, DelayAfter, WriteFor;
  }

  lemma ReadyFollows(row: Option<Row>, k: Streak, now: int)
    requires Follows(row, k, now)
    ensures var reset := if row.Some? then row.value.(until := None, backoff := 0) else Row(None, 0, "", None);
            Follows(Some(reset), FRESH_STREAK, now)
  {
  }

  lemma LongStreak(count: nat)
    ensures count >= 5 ==> DelayAfter(count + 1) == 1800
  {
    assert Power(1) == 2 && Power(2) == 4 && Power(3) == 8;
    assert Power(4) == 16 && Power(5) == 32;
  }

  lemma {:induction false} RunFollows(ops: seq<Op>, key: Key)
    requires Timed(ops)
    ensures Follows(RowOf(Run(ops), key), StreakOf(ops, key), LastTime(ops))
  {
    hide Step, Streaked, Follows;
    if ops == [] {
      FreshFollows(0);
    } else {
      var most, op := ops[..|ops| - 1], ops[|ops| - 1];
      RunFollows(most, key);
      if most == [] { FreshFollows(op.now); }
      StepFollows(Run(most), op, key, StreakOf(most, key), if most == [] then op.now else LastTime(most));
    }
  }

  lemma FreshFollows(now: int)
    ensures Follows(None, FRESH_STREAK, now)
  {
  }

  /**
   After k rate limits in a row, none during the cooldown of another, the level is min(k, 6) and the latest cooldown
   lasts min(60 * 2^(level - 1), 1800) seconds from the rate limit that began it; sweeps and reads in between change
   nothing.
   */
  lemma BackoffLaw(ops: seq<Op>, key: Key)
    requires Timed(ops) && StreakOf(ops, key).count > 0
    ensures key in Run(ops) && Run(ops)[key].backoff == Min(StreakOf(ops, key).count, 6)
    ensures var until := StreakOf(ops, key).until;
            until.Some? && (until.value > LastTime(ops) ==> Run(ops)[key].until == until)
  {
    hide Run;
    RunFollows(ops, key);
    StreakRuns(ops, key);
  }

  lemma {:induction false} StreakRuns(ops: seq<Op>, key: Key)
    ensures StreakOf(ops, key).count > 0 ==> StreakOf(ops, key).until.Some?
  {
    hide DelayAfter;
    if ops != [] {
      StreakRuns(ops[..|ops| - 1], key);
    }
  }
}
