/**
 The authorization sessions of both login flows: a table keyed by the raw state
 (its hash is injective here), seven statuses, and every operation as a function
 on the table. Encryption is the identity; times are Unix seconds.
 */
module OAuthSessionSteps {
  import opened Basics
  import opened Provider

  datatype Flow = Device | CallbackPKCE

  datatype Status = Pending | Authorized | Consumed | Completed | Failed | Expired | Cancelled

  type State = string

  datatype DeviceFields = DeviceFields(
    deviceCode: string, userCode: string, verificationUri: string, verificationUriComplete: string,
        tokenEndpoint: string)

  const NO_DEVICE := DeviceFields("", "", "", "", "")

  datatype PendingPayload = PendingPayload(verifier: string, redirectUri: string, expiresAt: Option<int>)

  datatype Authorization = Authorization(accessToken: string, refreshToken: string, idToken: string)

  /** What a row keeps encrypted. */
  datatype Payload = Payload(
    state: string, device: DeviceFields, pending: Option<PendingPayload>, authorization: Option<Authorization>,
        accountId: string)

  datatype Row = Row(
    kind: Kind, flow: Flow, sessionId: string, payload: Payload, status: Status, expiresAt: int, createdAt: int,
        updatedAt: int, sanitized: string)

  type Table = map<State, Row>

  /** A session handed to Create; an absent expiry is None, and an absent status leaves Pending. */
  datatype NewSession = NewSession(
    kind: Kind, flow: Flow, state: State, sessionId: string, device: DeviceFields, pending: Option<PendingPayload>,
    authorization: Option<Authorization>, accountId: string, status: Option<Status>, expiresAt: Option<int>,
        sanitized: string)

  datatype Error = Invalid | NoRows | TerminalConflict

  datatype Outcome<T> = Outcome(rows: Table, result: Result<T, Error>)

  predicate IsTerminal(s: Status) {
    s in {Completed, Failed, Expired, Cancelled}
  }

  /** What reading a row yields: only xAI device sessions have their state and device fields. */
  function Scan(row: Row): Row {
    if row.kind == XAI && row.flow == Device then row
    else row.(payload := row.payload.(state := "", device := NO_DEVICE))
  }

  function Encrypted(flow: Flow, payload: Payload): Payload {
    if flow == Device then payload else payload.(state := "")
  }

  function Dispose(payload: Payload): Payload {
    payload.(device := NO_DEVICE, pending := None, authorization := None)
  }

  /** The row that a query by state, provider and flow finds. */
  predicate Found(rows: Table, kind: Kind, flow: Flow, state: State) {
    state in rows && rows[state].kind == kind && rows[state].flow == flow
  }

  function Get(rows: Table, kind: Kind, flow: Flow, state: State): Result<Row, Error> {
    if state == "" then Err(Invalid)
    else if !Found(rows, kind, flow, state) then Err(NoRows)
    else
      var row := Scan(rows[state]);
      Ok(if flow == Device then row.(payload := row.payload.(state := state)) else row)
  }

  predicate CallbackPayload(v: NewSession) {
    && v.pending.Some? && v.pending.value.verifier != "" && v.pending.value.redirectUri != ""
    && v.pending.value.expiresAt.Some?
    && v.device == NO_DEVICE && v.authorization.None?
  }

  predicate Creatable(v: NewSession) {
    && v.state != "" && v.status in {None, Some(Pending)} && v.expiresAt.Some?
    && if v.flow == Device then v.pending.None? else CallbackPayload(v)
  }

  function NewRow(v: NewSession, generatedId: string, now: int): Row
    requires Creatable(v)
  {
    Row(v.kind, v.flow, if v.sessionId == "" then generatedId else v.sessionId,
        Encrypted(v.flow, Payload(v.state, v.device, v.pending, v.authorization, v.accountId)),
        Pending, v.expiresAt.value, now, now, v.sanitized)
  }

  predicate HasSession(row: Row, kind: Kind, flow: Flow, sessionId: string) {
    row.sessionId == sessionId && row.kind == kind && row.flow == flow
  }

  predicate SessionTaken(rows: Table, kind: Kind, flow: Flow, sessionId: string) {
    exists state :: state in rows && HasSession(rows[state], kind, flow, sessionId)
  }

  /** The account id of a new session is stored as it is given; the table's two unique indexes refuse duplicates. */
  function Create(rows: Table, v: NewSession, generatedId: string, now: int): Outcome<()> {
    if !Creatable(v) || v.state in rows || SessionTaken(rows, v.kind, v.flow, NewRow(v, generatedId, now).sessionId)
    then Outcome(rows, Err(Invalid))
    else Outcome(rows[v.state := NewRow(v, generatedId, now)], Ok(()))
  }

  type Change = Row -> Result<Row, Error>

  /** A change only touches the columns that an update writes. */
  function Written(row: Row, changed: Row, now: int): Row {
    row.(payload := Encrypted(row.flow, changed.payload), status := changed.status, updatedAt := now,
         sanitized := changed.sanitized)
  }

  function Mutate(rows: Table, kind: Kind, flow: Flow, state: State, now: int, from: set<Status>,
        change: Change): Outcome<()> {
    if state == "" then Outcome(rows, Err(Invalid))
    else if !Found(rows, kind, flow, state) then Outcome(rows, Err(NoRows))
    else if rows[state].status !in from then Outcome(rows, Err(TerminalConflict))
    else
      var changed := change(Scan(rows[state]));
      if changed.Err? then Outcome(rows, Err(changed.error))
      else Outcome(rows[state := Written(rows[state], changed.value, now)], Ok(()))
  }

  /** A change to the row under a session id, which the caller has found. */
  function MutateBySession(rows: Table, found: Option<State>, sessionId: string, now: int, from: set<Status>,
        change: Change): Outcome<()>
    requires found.Some? ==> found.value in rows
  {
    if Blank(sessionId) then Outcome(rows, Err(Invalid))
    else if found.None? then Outcome(rows, Err(NoRows))
    else
      var row := rows[found.value];
      if row.status !in from then Outcome(rows, Err(TerminalConflict))
      else
        var changed := change(Scan(row));
        if changed.Err? then Outcome(rows, Err(changed.error))
        else Outcome(rows[found.value := Written(row, changed.value, now)], Ok(()))
  }

  function ToTerminal(to: Status, sanitized: string): Change {
    (row: Row) => Ok(row.(status := to, sanitized := sanitized, payload := Dispose(row.payload).(accountId := "")))
  }

  function ToAuthorized(authorization: Authorization, now: int): Change {
    (row: Row) =>
      if now >= row.expiresAt then Err(NoRows)
      else Ok(row.(status := Authorized, sanitized := "",
                   payload := row.payload.(authorization := Some(authorization))))
  }

  function ToConsumed(now: int): Change {
    (row: Row) =>
      if now >= row.expiresAt || row.payload.pending.None? || row.payload.pending.value.verifier == ""
        || row.payload.pending.value.redirectUri == ""
      then Err(NoRows)
      else Ok(row.(status := Consumed, sanitized := "", payload := row.payload.(pending := None)))
  }

  function ToCompleted(accountId: string): Change {
    (row: Row) => Ok(row.(status := Completed, sanitized := "",
                          payload := Dispose(row.payload).(accountId := accountId)))
  }

  function Authorize(rows: Table, kind: Kind, flow: Flow, state: State, authorization: Authorization,
        now: int): Outcome<()> {
    if flow != Device then Outcome(rows, Err(NoRows))
    else if authorization.accessToken == "" then Outcome(rows, Err(Invalid))
    else Mutate(rows, kind, flow, state, now, {Pending}, ToAuthorized(authorization, now))
  }

  /** The verifier comes back only once the row that no longer has it is written. */
  function Consume(rows: Table, kind: Kind, flow: Flow, state: State, now: int): Outcome<PendingPayload> {
    if flow != CallbackPKCE then Outcome(rows, Err(NoRows))
    else
      var done := Mutate(rows, kind, flow, state, now, {Pending}, ToConsumed(now));
      match done.result
      case Err(error) => Outcome(rows, Err(error))
      case Ok(_) =>
        if state in rows && rows[state].payload.pending.Some?
        then Outcome(done.rows, Ok(rows[state].payload.pending.value))
        else Outcome(rows, Err(NoRows))
  }

  function CompleteFrom(flow: Flow): Status {
    if flow == CallbackPKCE then Consumed else Authorized
  }

  function Complete(rows: Table, kind: Kind, flow: Flow, state: State, accountId: string, now: int): Outcome<()> {
    if accountId == "" then Outcome(rows, Err(Invalid))
    else Mutate(rows, kind, flow, state, now, {CompleteFrom(flow)}, ToCompleted(accountId))
  }

  function CompleteConsumedDevin(rows: Table, state: State, accountId: string, now: int): Outcome<()> {
    if state == "" || accountId == "" || !Found(rows, Devin, CallbackPKCE, state) || rows[state].status != Consumed
    then Outcome(rows, Err(NoRows))
    else Outcome(rows[state := Written(rows[state], ToCompleted(accountId)(Scan(rows[state])).value, now)], Ok(()))
  }

  function FailFrom(flow: Flow): set<Status> {
    if flow == CallbackPKCE then {Consumed} else {Pending, Authorized}
  }

  function Terminate(rows: Table, kind: Kind, flow: Flow, state: State, to: Status, sanitized: string, now: int,
        from: set<Status>): Outcome<()> {
    Mutate(rows, kind, flow, state, now, from, ToTerminal(to, sanitized))
  }

  function Fail(rows: Table, kind: Kind, flow: Flow, state: State, sanitized: string, now: int): Outcome<()> {
    Terminate(rows, kind, flow, state, Failed, sanitized, now, FailFrom(flow))
  }

  function Cancel(rows: Table, kind: Kind, flow: Flow, state: State, sanitized: string, now: int): Outcome<()> {
    Terminate(rows, kind, flow, state, Cancelled, sanitized, now, {Pending, Authorized})
  }

  function Expire(rows: Table, kind: Kind, flow: Flow, state: State, sanitized: string, now: int): Outcome<()> {
    Terminate(rows, kind, flow, state, Expired, sanitized, now, {Pending, Authorized})
  }

  predicate Elapsed(row: Row, kind: Kind, flow: Flow, now: int) {
    row.kind == kind && row.flow == flow && row.status == Pending && row.expiresAt <= now
  }

  const EXPIRED_MESSAGE := "Devin authorization expired."

  function ExpiredRow(row: Row, now: int): Row {
    Written(row, ToTerminal(Expired, EXPIRED_MESSAGE)(Scan(row)).value, now)
  }

  function ExpirePendingBefore(rows: Table, kind: Kind, flow: Flow, now: int): Table {
    map state | state in rows ::
      if Elapsed(rows[state], kind, flow, now) then ExpiredRow(rows[state], now) else rows[state]
  }

  /** Restart recovery: the row fails, its payload stays as it is. */
  function FailConsumedByHash(rows: Table, kind: Kind, flow: Flow, state: State, sanitized: string,
        now: int): Outcome<()> {
    if flow != CallbackPKCE || !Found(rows, kind, flow, state) || rows[state].status != Consumed
    then Outcome(rows, Err(NoRows))
    else Outcome(rows[state := rows[state].(status := Failed, updatedAt := now, sanitized := sanitized)], Ok(()))
  }

  const AUTHORIZATION_RETENTION := 24 * 3600

  predicate Removable(row: Row, before: int) {
    || (row.status == Pending && row.expiresAt < before)
    || (row.status == Authorized && row.updatedAt < before - AUTHORIZATION_RETENTION)
    || (IsTerminal(row.status) && row.updatedAt < before)
  }

  ghost function AllRemovable(rows: Table, before: int): set<State> {
    set state | state in rows && Removable(rows[state], before)
  }
}

/** The repository, proved against the functions on its table. */
module OAuthSessions {
  import opened Basics
  import opened Provider
  import opened Steps = OAuthSessionSteps

  const CLEANUP_BATCH_SIZE := 500

  class OAuthSessionRepository {
    var rows: Table

    constructor ()
      ensures rows == map[]
    {
      rows := map[];
    }

    method Create(v: NewSession, generatedId: string, now: int) returns (result: Result<(), Error>)
      modifies this
      ensures Outcome(rows, result) == Steps.Create(old(rows), v, generatedId, now)
    {
      if v.state == "" { return Err(Invalid); }
      var sessionId := v.sessionId;
      if sessionId == "" { sessionId := generatedId; }
      if v.status.Some? && v.status.value != Pending { return Err(Invalid); }
      if v.expiresAt.None? { return Err(Invalid); }
      match v.flow {
        case Device =>
          if v.pending.Some? { return Err(Invalid); }
        case CallbackPKCE =>
          if v.pending.None? || v.pending.value.verifier == "" || v.pending.value.redirectUri == ""
            || v.pending.value.expiresAt.None? {
            return Err(Invalid);
          }
          if v.device != NO_DEVICE || v.authorization.Some? { return Err(Invalid); }
      }
      if v.state in rows { return Err(Invalid); }
      var holder := FindBySession(v.kind, v.flow, sessionId);
      if holder.Some? { return Err(Invalid); }
      var payload := Encrypted(v.flow, Payload(v.state, v.device, v.pending, v.authorization, v.accountId));
      rows := rows[v.state := Row(v.kind, v.flow, sessionId, payload, Pending, v.expiresAt.value, now, now,
                                  v.sanitized)];
      return Ok(());
    }

    method Get(kind: Kind, flow: Flow, state: State) returns (result: Result<Row, Error>)
      ensures result == Steps.Get(rows, kind, flow, state)
    {
      if state == "" { return Err(Invalid); }
      if !Found(rows, kind, flow, state) { return Err(NoRows); }
      var row := Scan(rows[state]);
      if flow == Device { row := row.(payload := row.payload.(state := state)); }
      return Ok(row);
    }

    /** Some row under a session id, in no particular order. */
    method FindBySession(kind: Kind, flow: Flow, sessionId: string) returns (found: Option<State>)
      ensures found.Some? ==> found.value in rows && HasSession(rows[found.value], kind, flow, sessionId)
      ensures found.None? ==> forall state :: state in rows ==> !HasSession(rows[state], kind, flow, sessionId)
    {
      var left := rows.Keys;
      while left != {}
        invariant left <= rows.Keys
        invariant forall state :: state in rows && state !in left ==> !HasSession(rows[state], kind, flow, sessionId)
        decreases |left|
      {
        var state := Pick(left);
        if HasSession(rows[state], kind, flow, sessionId) { return Some(state); }
        left := left - {state};
      }
      return None;
    }

    method Mutate(kind: Kind, flow: Flow, state: State, now: int, from: set<Status>,
          change: Change) returns (result: Result<(), Error>)
      modifies this
      ensures Outcome(rows, result) == Steps.Mutate(old(rows), kind, flow, state, now, from, change)
    {
      if state == "" { return Err(Invalid); }
      if !Found(rows, kind, flow, state) { return Err(NoRows); }
      var value := Scan(rows[state]);
      if value.status !in from { return Err(TerminalConflict); }
      var changed := change(value);
      if changed.Err? { return Err(changed.error); }
      rows := rows[state := Written(rows[state], changed.value, now)];
      return Ok(());
    }

    method MutateBySession(kind: Kind, flow: Flow, sessionId: string, now: int, from: set<Status>, change: Change)
      returns (result: Result<(), Error>, ghost found: Option<State>)
      modifies this
      ensures found.Some? ==> found.value in old(rows) && HasSession(old(rows)[found.value], kind, flow, sessionId)
      ensures found.None? && !Blank(sessionId) ==> forall state ::
              state in old(rows) ==> !HasSession(old(rows)[state], kind, flow, sessionId)
      ensures Outcome(rows, result) == Steps.MutateBySession(old(rows), found, sessionId, now, from, change)
    {
      if Blank(sessionId) { return Err(Invalid), None; }
      var holder := FindBySession(kind, flow, sessionId);
      found := holder;
      if holder.None? { return Err(NoRows), found; }
      var row := rows[holder.value];
      if row.status !in from { return Err(TerminalConflict), found; }
      var changed := change(Scan(row));
      if changed.Err? { return Err(changed.error), found; }
      rows := rows[holder.value := Written(row, changed.value, now)];
      return Ok(()), found;
    }

    method Authorize(kind: Kind, flow: Flow, state: State, authorization: Authorization,
          now: int) returns (result: Result<(), Error>)
      modifies this
      ensures Outcome(rows, result) == Steps.Authorize(old(rows), kind, flow, state, authorization, now)
    {
      if flow != Device { return Err(NoRows); }
      if authorization.accessToken == "" { return Err(Invalid); }
      result := Mutate(kind, flow, state, now, {Pending}, ToAuthorized(authorization, now));
    }

    method Consume(kind: Kind, flow: Flow, state: State, now: int) returns (result: Result<PendingPayload, Error>)
      modifies this
      ensures Outcome(rows, result) == Steps.Consume(old(rows), kind, flow, state, now)
    {
      if flow != CallbackPKCE { return Err(NoRows); }
      var consumed := if state in rows then rows[state].payload.pending else None;
      var done := Mutate(kind, flow, state, now, {Pending}, ToConsumed(now));
      if done.Err? { return Err(done.error); }
      return Ok(consumed.value);
    }

    method Complete(kind: Kind, flow: Flow, state: State, accountId: string, now: int) returns (result: Result<(),
          Error>)
      modifies this
      ensures Outcome(rows, result) == Steps.Complete(old(rows), kind, flow, state, accountId, now)
    {
      if accountId == "" { return Err(Invalid); }
      result := Mutate(kind, flow, state, now, {CompleteFrom(flow)}, ToCompleted(accountId));
    }

    method CompleteConsumedDevin(state: State, accountId: string, now: int) returns (result: Result<(), Error>)
      modifies this
      ensures Outcome(rows, result) == Steps.CompleteConsumedDevin(old(rows), state, accountId, now)
    {
      if state == "" || accountId == "" || !Found(rows, Devin, CallbackPKCE, state) { return Err(NoRows); }
      var value := Scan(rows[state]);
      if value.status != Consumed { return Err(NoRows); }
      value := value.(status := Completed, sanitized := "", payload := Dispose(value.payload).(accountId := accountId));
      rows := rows[state := Written(rows[state], value, now)];
      return Ok(());
    }

    method Fail(kind: Kind, flow: Flow, state: State, sanitized: string, now: int) returns (result: Result<(), Error>)
      modifies this
      ensures Outcome(rows, result) == Steps.Fail(old(rows), kind, flow, state, sanitized, now)
    {
      result := Mutate(kind, flow, state, now, FailFrom(flow), ToTerminal(Failed, sanitized));
    }

    method Cancel(kind: Kind, flow: Flow, state: State, sanitized: string, now: int) returns (result: Result<(), Error>)
      modifies this
      ensures Outcome(rows, result) == Steps.Cancel(old(rows), kind, flow, state, sanitized, now)
    {
      result := Mutate(kind, flow, state, now, {Pending, Authorized}, ToTerminal(Cancelled, sanitized));
    }

    method Expire(kind: Kind, flow: Flow, state: State, sanitized: string, now: int) returns (result: Result<(), Error>)
      modifies this
      ensures Outcome(rows, result) == Steps.Expire(old(rows), kind, flow, state, sanitized, now)
    {
      result := Mutate(kind, flow, state, now, {Pending, Authorized}, ToTerminal(Expired, sanitized));
    }

    method CancelBySessionID(kind: Kind, flow: Flow, sessionId: string, sanitized: string, now: int)
      returns (result: Result<(), Error>, ghost found: Option<State>)
      modifies this
      ensures found.Some? ==> found.value in old(rows) && HasSession(old(rows)[found.value], kind, flow, sessionId)
      ensures found.None? && !Blank(sessionId) ==> forall state ::
              state in old(rows) ==> !HasSession(old(rows)[state], kind, flow, sessionId)
      ensures Outcome(rows, result)
           == Steps.MutateBySession(old(rows), found, sessionId, now, {Pending, Authorized},
                                    ToTerminal(Cancelled, sanitized))
    {
      result, found := MutateBySession(kind, flow, sessionId, now, {Pending, Authorized},
                                       ToTerminal(Cancelled, sanitized));
    }

    method ExpireBySessionID(kind: Kind, flow: Flow, sessionId: string, sanitized: string, now: int)
      returns (result: Result<(), Error>, ghost found: Option<State>)
      modifies this
      ensures found.Some? ==> found.value in old(rows) && HasSession(old(rows)[found.value], kind, flow, sessionId)
      ensures found.None? && !Blank(sessionId) ==> forall state ::
              state in old(rows) ==> !HasSession(old(rows)[state], kind, flow, sessionId)
      ensures Outcome(rows, result)
           == Steps.MutateBySession(old(rows), found, sessionId, now, {Pending, Authorized},
                                    ToTerminal(Expired, sanitized))
    {
      result, found := MutateBySession(kind, flow, sessionId, now, {Pending, Authorized},
                                       ToTerminal(Expired, sanitized));
    }

    method FailConsumedByHash(kind: Kind, flow: Flow, state: State, sanitized: string,
          now: int) returns (result: Result<(), Error>)
      modifies this
      ensures Outcome(rows, result) == Steps.FailConsumedByHash(old(rows), kind, flow, state, sanitized, now)
    {
      if flow != CallbackPKCE || !Found(rows, kind, flow, state) || rows[state].status != Consumed {
        return Err(NoRows);
      }
      rows := rows[state := rows[state].(status := Failed, updatedAt := now, sanitized := sanitized)];
      return Ok(());
    }

    /** Expires the elapsed rows one after another, in no particular order. */
    method ExpirePendingBefore(kind: Kind, flow: Flow, now: int) returns (count: nat)
      modifies this
      ensures rows == Steps.ExpirePendingBefore(old(rows), kind, flow, now)
      ensures count == |set state | state in old(rows) && Elapsed(old(rows)[state], kind, flow, now)|
    {
      hide Elapsed, ExpiredRow;
      var elapsed := set state | state in rows && Elapsed(rows[state], kind, flow, now);
      count := |elapsed|;
      var left := elapsed;
      while left != {}
        invariant left <= elapsed && rows.Keys == old(rows).Keys
        invariant forall state :: state in rows ==>
          rows[state] == if state in elapsed && state !in left then ExpiredRow(old(rows)[state], now)
          else old(rows)[state]
        decreases |left|
      {
        var state := Pick(left);
        rows := rows[state := ExpiredRow(rows[state], now)];
        left := left - {state};
      }
    }

    method Cleanup(before: int) returns (removed: nat)
      modifies this
      ensures exists victims | victims <= AllRemovable(old(rows), before) ::
                rows == old(rows) - victims
                  && removed == |victims| == Min(CLEANUP_BATCH_SIZE, |AllRemovable(old(rows), before)|)
    {
      hide Removable;
      var left := set state | state in rows && Removable(rows[state], before);
      ghost var all := left;
      ghost var victims: set<State> := {};
      removed := 0;
      assert rows == old(rows) - victims;
      while left != {} && removed < CLEANUP_BATCH_SIZE
        invariant left !! victims && left + victims == all && |victims| == removed <= CLEANUP_BATCH_SIZE
        invariant rows == old(rows) - victims
        decreases |left|
      {
        var state := Pick(left);
        rows := rows - {state};
        left := left - {state};
        victims := victims + {state};
        removed := removed + 1;
      }
      SplitSize(all, left, victims);
      assert all == AllRemovable(old(rows), before);
    }
  }
}
