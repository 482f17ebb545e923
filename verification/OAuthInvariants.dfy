/** What every sequence of session operations keeps. */
module OAuthInvariants {
  import opened Basics
  import opened Provider
  import opened OAuthSessionSteps

  datatype Op =
    | CreateOp(v: NewSession, generatedId: string, now: int)
    | AuthorizeOp(kind: Kind, flow: Flow, state: State, authorization: Authorization, now: int)
    | ConsumeOp(kind: Kind, flow: Flow, state: State, now: int)
    | CompleteOp(kind: Kind, flow: Flow, state: State, accountId: string, now: int)
    | PublishOp(state: State, accountId: string, now: int)
    | FailOp(kind: Kind, flow: Flow, state: State, sanitized: string, now: int)
    | CancelOp(kind: Kind, flow: Flow, state: State, sanitized: string, now: int)
    | ExpireOp(kind: Kind, flow: Flow, state: State, sanitized: string, now: int)
    | SessionOp(to: Status, found: State, sessionId: string, sanitized: string, now: int)
    | ExpirePendingOp(kind: Kind, flow: Flow, now: int)
    | FailConsumedOp(kind: Kind, flow: Flow, state: State, sanitized: string, now: int)
    | CleanupOp(victims: set<State>, before: int)

  /** The table after an operation; by session id one can only cancel or expire, and cleanup takes what it may. */
  ghost function Step(rows: Table, op: Op): Table {
    match op
    case CreateOp(v, generatedId, now) => Create(rows, v, generatedId, now).rows
    case AuthorizeOp(kind, flow, state, authorization, now) =>
      Authorize(rows, kind, flow, state, authorization, now).rows
    case ConsumeOp(kind, flow, state, now) => Consume(rows, kind, flow, state, now).rows
    case CompleteOp(kind, flow, state, accountId, now) => Complete(rows, kind, flow, state, accountId, now).rows
    case PublishOp(state, accountId, now) => CompleteConsumedDevin(rows, state, accountId, now).rows
    case FailOp(kind, flow, state, sanitized, now) => Fail(rows, kind, flow, state, sanitized, now).rows
    case CancelOp(kind, flow, state, sanitized, now) => Cancel(rows, kind, flow, state, sanitized, now).rows
    case ExpireOp(kind, flow, state, sanitized, now) => Expire(rows, kind, flow, state, sanitized, now).rows
    case SessionOp(to, found, sessionId, sanitized, now) =>
      if found !in rows || to !in {Cancelled, Expired} then rows
      else MutateBySession(rows, Some(found), sessionId, now, {Pending, Authorized}, ToTerminal(to, sanitized)).rows
    case ExpirePendingOp(kind, flow, now) => ExpirePendingBefore(rows, kind, flow, now)
    case FailConsumedOp(kind, flow, state, sanitized, now) =>
      FailConsumedByHash(rows, kind, flow, state, sanitized, now).rows
    case CleanupOp(victims, before) => rows - (victims * AllRemovable(rows, before))
  }

  ghost function Run(ops: seq<Op>): Table {
    if ops == [] then map[] else Step(Run(ops[..|ops| - 1]), ops[|ops| - 1])
  }

  function RowOf(rows: Table, state: State): Option<Row> {
    if state in rows then Some(rows[state]) else None
  }

  predicate SecretFree(payload: Payload) {
    payload.device == NO_DEVICE && payload.pending.None? && payload.authorization.None?
  }

  /** What holds of a row in every reachable table. */
  predicate RowValid(row: Row) {
    && (IsTerminal(row.status) ==> SecretFree(row.payload))
    && (row.status == Consumed ==> row.flow == CallbackPKCE && SecretFree(row.payload))
    && (row.status == Authorized ==> row.flow == Device)
    && (row.flow == CallbackPKCE
        ==> row.payload.device == NO_DEVICE && row.payload.authorization.None? && row.payload.state == "")
    && (row.flow == Device ==> row.payload.pending.None?)
    && (row.status == Completed ==> row.payload.accountId != "")
  }

  ghost predicate TableValid(rows: Table) {
    forall state :: state in rows ==> RowValid(rows[state])
  }

  /** The transitions there are. */
  predicate Edge(flow: Flow, from: Status, to: Status) {
    match from
    case Pending =>
      to in {Cancelled, Expired} || (if flow == Device then to in {Authorized, Failed} else to == Consumed)
    case Authorized => flow == Device && to in {Completed, Failed, Cancelled, Expired}
    case Consumed => flow == CallbackPKCE && to in {Completed, Failed}
    case _ => false
  }

  /** The account id marks the completed sessions. */
  predicate AccountExact(row: Row) {
    row.payload.accountId != "" <==> row.status == Completed
  }

  /**
   What an operation may do to one row: nothing, create it pending, remove it unless consumed, or move it along an
   edge.
   */
  predicate Moved(before: Option<Row>, after: Option<Row>) {
    if before.None? then after.Some? ==> after.value.status == Pending && RowValid(after.value)
    else if after.None? then before.value.status != Consumed
    else
      after == before
      || (&& Edge(before.value.flow, before.value.status, after.value.status) && RowValid(after.value)
          && (AccountExact(before.value) ==> AccountExact(after.value))
          && after.value.kind == before.value.kind && after.value.flow == before.value.flow
          && after.value.sessionId == before.value.sessionId && after.value.expiresAt == before.value.expiresAt)
  }

  // ----- One operation -----

  lemma MutateMoves(rows: Table, kind: Kind, flow: Flow, state: State, now: int, from: set<Status>, change: Change)
    requires TableValid(rows)
    requires state in rows && rows[state].kind == kind && rows[state].flow == flow && rows[state].status in from ==>
               var changed := change(Scan(rows[state]));
               changed.Ok? ==> Moved(Some(rows[state]), Some(Written(rows[state], changed.value, now)))
    ensures forall s :: Moved(RowOf(rows, s), RowOf(Mutate(rows, kind, flow, state, now, from, change).rows, s))
  {
    hide Moved, Written, Scan;
    forall s ensures Moved(RowOf(rows, s), RowOf(Mutate(rows, kind, flow, state, now, from, change).rows, s)) {
      Unmoved(RowOf(rows, s));
    }
  }

  lemma Unmoved(row: Option<Row>)
    ensures Moved(row, row)
  {
  }

  lemma TerminalMoves(row: Row, to: Status, sanitized: string, now: int)
    requires RowValid(row) && Edge(row.flow, row.status, to) && to in {Failed, Expired, Cancelled}
    ensures Moved(Some(row), Some(Written(row, ToTerminal(to, sanitized)(Scan(row)).value, now)))
  {
  }

  lemma AuthorizedMoves(row: Row, authorization: Authorization, now: int)
    requires RowValid(row) && row.flow == Device && row.status == Pending
    ensures var changed := ToAuthorized(authorization, now)(Scan(row));
            changed.Ok? ==> Moved(Some(row), Some(Written(row, changed.value, now)))
  {
  }

  lemma ConsumedMoves(row: Row, now: int)
    requires RowValid(row) && row.flow == CallbackPKCE && row.status == Pending
    ensures var changed := ToConsumed(now)(Scan(row));
            changed.Ok? ==> Moved(Some(row), Some(Written(row, changed.value, now)))
  {
  }

  lemma CompletedMoves(row: Row, accountId: string, now: int)
    requires RowValid(row) && row.status == CompleteFrom(row.flow) && accountId != ""
    ensures Moved(Some(row), Some(Written(row, ToCompleted(accountId)(Scan(row)).value, now)))
  {
  }

  lemma CreateMoves(rows: Table, v: NewSession, generatedId: string, now: int)
    requires TableValid(rows)
    ensures forall s :: Moved(RowOf(rows, s), RowOf(Create(rows, v, generatedId, now).rows, s))
  {
  }

  lemma TerminateMoves(rows: Table, kind: Kind, flow: Flow, state: State, to: Status, sanitized: string, now: int,
        from: set<Status>)
    requires TableValid(rows) && to in {Failed, Expired, Cancelled} && from <= {Pending, Authorized, Consumed}
    requires forall status ::
            status in from ==> Edge(flow, status, to) || (flow == CallbackPKCE && status == Authorized)
    ensures forall s :: Moved(RowOf(rows, s),
                              RowOf(Terminate(rows, kind, flow, state, to, sanitized, now, from).rows, s))
  {
    hide Moved, Written, Scan;
    if state in rows && rows[state].kind == kind && rows[state].flow == flow && rows[state].status in from {
      TerminalMoves(rows[state], to, sanitized, now);
    }
    MutateMoves(rows, kind, flow, state, now, from, ToTerminal(to, sanitized));
  }

  lemma SessionMoves(rows: Table, to: Status, found: State, sessionId: string, sanitized: string, now: int)
    requires TableValid(rows)
    ensures forall s :: Moved(RowOf(rows, s), RowOf(Step(rows, SessionOp(to, found, sessionId, sanitized, now)), s))
  {
    hide Moved, Written, Scan;
    if found in rows && rows[found].status in {Pending, Authorized} && to in {Cancelled, Expired} {
      TerminalMoves(rows[found], to, sanitized, now);
    }
    forall s ensures Moved(RowOf(rows, s), RowOf(Step(rows, SessionOp(to, found, sessionId, sanitized, now)), s)) {
      Unmoved(RowOf(rows, s));
    }
  }

  lemma SweepMoves(rows: Table, kind: Kind, flow: Flow, now: int)
    requires TableValid(rows)
    ensures forall s :: Moved(RowOf(rows, s), RowOf(ExpirePendingBefore(rows, kind, flow, now), s))
  {
    hide Moved, Written, Scan;
    forall s ensures Moved(RowOf(rows, s), RowOf(ExpirePendingBefore(rows, kind, flow, now), s)) {
      Unmoved(RowOf(rows, s));
      if s in rows && Elapsed(rows[s], kind, flow, now) {
        TerminalMoves(rows[s], Expired, EXPIRED_MESSAGE, now);
      }
    }
  }

  lemma PublishMoves(rows: Table, state: State, accountId: string, now: int)
    requires TableValid(rows)
    ensures forall s :: Moved(RowOf(rows, s), RowOf(CompleteConsumedDevin(rows, state, accountId, now).rows, s))
  {
    hide Moved, Written, Scan;
    forall s ensures Moved(RowOf(rows, s), RowOf(CompleteConsumedDevin(rows, state, accountId, now).rows, s)) {
      Unmoved(RowOf(rows, s));
      if s == state && Found(rows, Devin, CallbackPKCE, state) && rows[state].status == Consumed && accountId != "" {
        CompletedMoves(rows[state], accountId, now);
      }
    }
  }

  /** Restart recovery leaves the payload, which a consumed row has already given up. */
  lemma FailConsumedMoves(rows: Table, kind: Kind, flow: Flow, state: State, sanitized: string, now: int)
    requires TableValid(rows)
    ensures forall s :: Moved(RowOf(rows, s),
                              RowOf(FailConsumedByHash(rows, kind, flow, state, sanitized, now).rows, s))
  {
  }

  lemma CleanupMoves(rows: Table, victims: set<State>, before: int)
    ensures forall s :: Moved(RowOf(rows, s), RowOf(rows - (victims * AllRemovable(rows, before)), s))
  {
  }

  lemma ChangeMoves(rows: Table, op: Op)
    requires TableValid(rows) && (op.AuthorizeOp? || op.ConsumeOp? || op.CompleteOp?)
    ensures forall s :: Moved(RowOf(rows, s), RowOf(Step(rows, op), s))
  {
    hide Moved, Written, Scan, Mutate;
    forall s ensures Moved(RowOf(rows, s), RowOf(rows, s)) { Unmoved(RowOf(rows, s)); }
    var mine := op.state in rows && rows[op.state].kind == op.kind && rows[op.state].flow == op.flow;
    match op {
      case AuthorizeOp(kind, flow, state, authorization, now) =>
        if mine && flow == Device {
          if rows[state].status == Pending { AuthorizedMoves(rows[state], authorization, now); }
        }
        if flow == Device { MutateMoves(rows, kind, flow, state, now, {Pending}, ToAuthorized(authorization, now)); }
      case ConsumeOp(kind, flow, state, now) =>
        if mine && flow == CallbackPKCE {
          if rows[state].status == Pending { ConsumedMoves(rows[state], now); }
        }
        if flow == CallbackPKCE { MutateMoves(rows, kind, flow, state, now, {Pending}, ToConsumed(now)); }
      case CompleteOp(kind, flow, state, accountId, now) =>
        if mine && accountId != "" {
          if rows[state].status == CompleteFrom(flow) { CompletedMoves(rows[state], accountId, now); }
        }
        if accountId != "" { MutateMoves(rows, kind, flow, state, now, {CompleteFrom(flow)}, ToCompleted(accountId)); }
    }
  }

  /** Whatever the operation, every row stays, appears pending, disappears unless consumed, or moves along one edge. */
  lemma StepMoves(rows: Table, op: Op)
    requires TableValid(rows)
    ensures forall s :: Moved(RowOf(rows, s), RowOf(Step(rows, op), s))
  {
    hide Moved, RowOf, Create, Authorize, Consume, Complete, CompleteConsumedDevin, MutateBySession,
         ExpirePendingBefore, FailConsumedByHash, Terminate;
    match op {
      case CreateOp(v, generatedId, now) => CreateMoves(rows, v, generatedId, now);
      case AuthorizeOp(_, _, _, _, _) => ChangeMoves(rows, op);
      case ConsumeOp(_, _, _, _) => ChangeMoves(rows, op);
      case CompleteOp(_, _, _, _, _) => ChangeMoves(rows, op);
      case PublishOp(state, accountId, now) => PublishMoves(rows, state, accountId, now);
      case FailOp(kind, flow, state, sanitized, now) =>
        TerminateMoves(rows, kind, flow, state, Failed, sanitized, now, FailFrom(flow));
      case CancelOp(kind, flow, state, sanitized, now) =>
        TerminateMoves(rows, kind, flow, state, Cancelled, sanitized, now, {Pending, Authorized});
      case ExpireOp(kind, flow, state, sanitized, now) =>
        TerminateMoves(rows, kind, flow, state, Expired, sanitized, now, {Pending, Authorized});
      case SessionOp(to, found, sessionId, sanitized, now) => SessionMoves(rows, to, found, sessionId, sanitized, now);
      case ExpirePendingOp(kind, flow, now) => SweepMoves(rows, kind, flow, now);
      case FailConsumedOp(kind, flow, state, sanitized, now) =>
        FailConsumedMoves(rows, kind, flow, state, sanitized, now);
      case CleanupOp(victims, before) => CleanupMoves(rows, victims, before);
    }
  }

  lemma MovedValid(before: Option<Row>, after: Option<Row>)
    requires Moved(before, after) && (before.Some? ==> RowValid(before.value))
    ensures after.Some? ==> RowValid(after.value)
  {
    hide RowValid;
  }

  lemma StepValid(rows: Table, op: Op)
    requires TableValid(rows)
    ensures TableValid(Step(rows, op))
  {
    hide Moved, Step, RowValid;
    StepMoves(rows, op);
    forall s | s in Step(rows, op) ensures RowValid(Step(rows, op)[s]) {
      MovedValid(RowOf(rows, s), RowOf(Step(rows, op), s));
    }
  }

  // ----- Whole runs -----

  /**
   In every reachable table: rows in a terminal status or consumed carry no device code, verifier or token, consumed
   rows are callback sessions, and completed rows have an account.
   */
  lemma {:induction false} RunValid(ops: seq<Op>)
    ensures TableValid(Run(ops))
  {
    hide Step, RowValid;
    if ops != [] {
      RunValid(ops[..|ops| - 1]);
      StepValid(Run(ops[..|ops| - 1]), ops[|ops| - 1]);
    }
  }

  lemma TerminalStays(before: Option<Row>, after: Option<Row>)
    requires Moved(before, after) && before.Some? && IsTerminal(before.value.status)
    ensures after.None? || after == before
  {
  }

  lemma OnlyCleanupRemoves(rows: Table, op: Op)
    requires !op.CleanupOp?
    ensures forall s :: s in rows ==> s in Step(rows, op)
  {
    hide Written, Scan;
  }

  lemma RunMore(ops: seq<Op>, more: seq<Op>)
    requires more != []
    ensures Run(ops + more) == Step(Run(ops + more[..|more| - 1]), more[|more| - 1])
  {
    hide Step;
    assert (ops + more)[..|ops + more| - 1] == ops + more[..|more| - 1];
  }

  /** Terminal rows are never changed again: only a cleanup can end them, by removing them. */
  lemma {:induction false} TerminalIsAbsorbing(ops: seq<Op>, more: seq<Op>, state: State)
    requires state in Run(ops) && IsTerminal(Run(ops)[state].status)
    requires forall i :: 0 <= i < |more| ==> !more[i].CleanupOp?
    ensures state in Run(ops + more) && Run(ops + more)[state] == Run(ops)[state]
    decreases |more|
  {
    hide Step, Moved, Run, TableValid;
    if more == [] {
      assert ops + more == ops;
    } else {
      var most, last := more[..|more| - 1], more[|more| - 1];
      TerminalIsAbsorbing(ops, most, state);
      RunMore(ops, more);
      RunValid(ops + most);
      StepMoves(Run(ops + most), last);
      OnlyCleanupRemoves(Run(ops + most), last);
      TerminalStays(RowOf(Run(ops + most), state), RowOf(Run(ops + more), state));
    }
  }

  /** A consumed row is never removed, by cleanup or otherwise. */
  lemma ConsumedIsKept(ops: seq<Op>, op: Op, state: State)
    requires state in Run(ops) && Run(ops)[state].status == Consumed
    ensures state in Step(Run(ops), op)
  {
    hide Step, TableValid;
    RunValid(ops);
    StepMoves(Run(ops), op);
    assert Moved(RowOf(Run(ops), state), RowOf(Step(Run(ops), op), state));
  }

  // ----- Account ids -----

  ghost predicate AccountsExact(rows: Table) {
    forall s :: s in rows ==> AccountExact(rows[s])
  }

  /** The operation creates a session that already has an account id. */
  predicate CreatesWithAccount(rows: Table, op: Op) {
    op.CreateOp? && Create(rows, op.v, op.generatedId, op.now).result.Ok? && op.v.accountId != ""
  }

  lemma CreateAccount(rows: Table, v: NewSession, generatedId: string, now: int)
    requires AccountsExact(rows) && Create(rows, v, generatedId, now).result.Ok?
    ensures AccountsExact(Create(rows, v, generatedId, now).rows) <==> v.accountId == ""
  {
    if v.accountId != "" {
      assert !AccountExact(Create(rows, v, generatedId, now).rows[v.state]);
    }
  }

  lemma OnlyCreateAdds(rows: Table, op: Op)
    requires !op.CreateOp?
    ensures forall s :: s in Step(rows, op) ==> s in rows
  {
    hide Written, Scan;
  }

  lemma MovedAccount(before: Option<Row>, after: Option<Row>)
    requires Moved(before, after) && before.Some? && after.Some? && AccountExact(before.value)
    ensures AccountExact(after.value)
  {
    hide AccountExact;
  }

  lemma StepAccounts(rows: Table, op: Op)
    requires TableValid(rows) && AccountsExact(rows)
    ensures AccountsExact(Step(rows, op)) <==> !CreatesWithAccount(rows, op)
  {
    hide Moved, AccountExact;
    if op.CreateOp? {
      if Create(rows, op.v, op.generatedId, op.now).result.Ok? {
        CreateAccount(rows, op.v, op.generatedId, op.now);
      }
    } else {
      StepMoves(rows, op);
      OnlyCreateAdds(rows, op);
      hide Step;
      forall s | s in Step(rows, op) ensures AccountExact(Step(rows, op)[s]) {
        MovedAccount(RowOf(rows, s), RowOf(Step(rows, op), s));
      }
    }
  }

  ghost predicate ExactAfter(ops: seq<Op>, k: nat) {
    k <= |ops| ==> AccountsExact(Run(ops[..k]))
  }

  ghost predicate PlainAt(ops: seq<Op>, k: nat) {
    k < |ops| ==> !CreatesWithAccount(Run(ops[..k]), ops[k])
  }

  lemma NextExact(ops: seq<Op>)
    requires ops != [] && ExactAfter(ops, |ops| - 1)
    ensures ExactAfter(ops, |ops|) <==> PlainAt(ops, |ops| - 1)
  {
    hide Step, AccountsExact, TableValid, CreatesWithAccount;
    var most := ops[..|ops| - 1];
    assert ops[..|ops|] == ops;
    RunValid(most);
    StepAccounts(Run(most), ops[|ops| - 1]);
  }

  lemma SamePrefix(ops: seq<Op>, k: nat)
    requires ops != [] && k < |ops|
    ensures ExactAfter(ops[..|ops| - 1], k) == ExactAfter(ops, k)
    ensures k < |ops| - 1 ==> PlainAt(ops[..|ops| - 1], k) == PlainAt(ops, k)
  {
    hide Run, AccountsExact, CreatesWithAccount;
    assert ops[..|ops| - 1][..k] == ops[..k];
  }

  /**
   Account ids mark exactly the completed sessions throughout a run, if and only if no session is created with one.
   */
  lemma {:induction false} AccountsExactly(ops: seq<Op>)
    ensures (forall k :: 0 <= k <= |ops| ==> ExactAfter(ops, k)) <==> (forall k :: 0 <= k < |ops| ==> PlainAt(ops, k))
  {
    hide ExactAfter, PlainAt;
    if ops == [] {
      NoAccounts();
    } else {
      var most := ops[..|ops| - 1];
      AccountsExactly(most);
      forall k: nat | k < |ops| ensures ExactAfter(most, k) == ExactAfter(ops, k) { SamePrefix(ops, k); }
      forall k: nat | k < |most| ensures PlainAt(most, k) == PlainAt(ops, k) { SamePrefix(ops, k); }
      if ExactAfter(ops, |ops| - 1) {
        NextExact(ops);
      }
    }
  }

  lemma NoAccounts()
    ensures ExactAfter([], 0)
  {
  }

  /** A new session handed over with an account id is pending and has one. */
  lemma PendingWithAccount(now: int)
    ensures var v := NewSession(Devin, CallbackPKCE, "s", "id", NO_DEVICE,
                                Some(PendingPayload("v", "u", Some(now + 300))), None, "acct", None, Some(now + 300),
                                    "");
            var created := Create(map[], v, "", now);
            created.result.Ok? && created.rows["s"].status == Pending && !AccountExact(created.rows["s"])
  {
    var v := NewSession(Devin, CallbackPKCE, "s", "id", NO_DEVICE, Some(PendingPayload("v", "u", Some(now + 300))),
                        None, "acct", None, Some(now + 300), "");
    assert !SessionTaken(map[], v.kind, v.flow, v.sessionId);
  }
}
