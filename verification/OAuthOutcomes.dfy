/**
 When each session operation succeeds and what it then leaves, told on the row it
 finds; and that no session is used at or after its expiry.
 */
module OAuthOutcomes {
  import opened Basics
  import opened Provider
  import opened OAuthSessionSteps
  import opened OAuthInvariants

  /** The row that provider, flow and state name. */
  predicate Names(rows: Table, kind: Kind, flow: Flow, state: State) {
    state != "" && state in rows && rows[state].kind == kind && rows[state].flow == flow
  }

  /** What an operation fixes of the row it changes; everything else of the row stays. */
  predicate Becomes(before: Row, after: Row, status: Status, now: int, sanitized: string) {
    && after.status == status && after.updatedAt == now && after.sanitized == sanitized
    && after.kind == before.kind && after.flow == before.flow && after.sessionId == before.sessionId
    && after.expiresAt == before.expiresAt && after.createdAt == before.createdAt
  }

  /** Success changes the named row alone, and failure nothing. */
  ghost predicate ChangesOnly(before: Table, after: Table, state: State, ok: bool) {
    if ok then state in before && state in after && after == before[state := after[state]] else after == before
  }

  predicate WithoutSecrets(row: Row, accountId: string) {
    row.payload == Payload(row.payload.state, NO_DEVICE, None, None, accountId)
  }

  /** A lookup finds exactly the named row, without a device code unless it is that of an xAI device session. */
  lemma GetsExactly(rows: Table, kind: Kind, flow: Flow, state: State)
    ensures var found := Get(rows, kind, flow, state);
            && (found.Ok? <==> Names(rows, kind, flow, state))
            && (found == Err(Invalid) <==> state == "")
            && (found.Ok? ==>
                 var row := rows[state];
                 var device := if kind == XAI && flow == Device then row.payload.device else NO_DEVICE;
                 found.value == row.(payload := Payload(if flow == Device then state else "", device,
                                                        row.payload.pending, row.payload.authorization,
                                                        row.payload.accountId)))
  {
  }

  /** Only a pending device session is authorized, before its expiry, and keeps its tokens. */
  lemma AuthorizesExactly(rows: Table, kind: Kind, flow: Flow, state: State, a: Authorization, now: int)
    ensures var done := Authorize(rows, kind, flow, state, a, now);
            && (done.result.Ok? <==>
                 flow == Device && a.accessToken != "" && Names(rows, kind, flow, state)
                 && rows[state].status == Pending && now < rows[state].expiresAt)
            && ChangesOnly(rows, done.rows, state, done.result.Ok?)
            && (done.result.Ok? ==>
                 Becomes(rows[state], done.rows[state], Authorized, now, "")
                 && done.rows[state].payload.authorization == Some(a)
                 && done.rows[state].payload.accountId == rows[state].payload.accountId)
  {
  }

  /** Only a pending callback session is consumed, before its expiry, for the verifier it then gives up. */
  lemma ConsumesExactly(rows: Table, kind: Kind, flow: Flow, state: State, now: int)
    ensures var done := Consume(rows, kind, flow, state, now);
            && (done.result.Ok? <==>
                 flow == CallbackPKCE && Names(rows, kind, flow, state)
                 && rows[state].status == Pending && now < rows[state].expiresAt
                 && rows[state].payload.pending.Some? && rows[state].payload.pending.value.verifier != ""
                 && rows[state].payload.pending.value.redirectUri != "")
            && ChangesOnly(rows, done.rows, state, done.result.Ok?)
            && (done.result.Ok? ==>
                 done.result.value == rows[state].payload.pending.value
                 && Becomes(rows[state], done.rows[state], Consumed, now, "")
                 && done.rows[state].payload.pending.None?)
  {
  }

  /** Only an authorized device session or a consumed callback session is completed, with its account. */
  lemma CompletesExactly(rows: Table, kind: Kind, flow: Flow, state: State, accountId: string, now: int)
    ensures var done := Complete(rows, kind, flow, state, accountId, now);
            && (done.result.Ok? <==>
                 accountId != "" && Names(rows, kind, flow, state)
                 && rows[state].status == if flow == Device then Authorized else Consumed)
            && ChangesOnly(rows, done.rows, state, done.result.Ok?)
            && (done.result.Ok? ==>
                 Becomes(rows[state], done.rows[state], Completed, now, "")
                 && WithoutSecrets(done.rows[state], accountId))
  {
  }

  lemma PublishesExactly(rows: Table, state: State, accountId: string, now: int)
    ensures var done := CompleteConsumedDevin(rows, state, accountId, now);
            && (done.result.Ok? <==>
                 accountId != "" && Names(rows, Devin, CallbackPKCE, state) && rows[state].status == Consumed)
            && ChangesOnly(rows, done.rows, state, done.result.Ok?)
            && (done.result.Ok? ==>
                 Becomes(rows[state], done.rows[state], Completed, now, "")
                 && WithoutSecrets(done.rows[state], accountId))
  {
  }

  /** A consumed callback session fails, and a device session until it is completed. */
  lemma FailsExactly(rows: Table, kind: Kind, flow: Flow, state: State, sanitized: string, now: int)
    ensures var done := Fail(rows, kind, flow, state, sanitized, now);
            && (done.result.Ok? <==>
                 Names(rows, kind, flow, state)
                 && if flow == CallbackPKCE then rows[state].status == Consumed
                    else rows[state].status == Pending || rows[state].status == Authorized)
            && ChangesOnly(rows, done.rows, state, done.result.Ok?)
            && (done.result.Ok? ==>
                 Becomes(rows[state], done.rows[state], Failed, now, sanitized) && WithoutSecrets(done.rows[state], ""))
  {
  }

  /** Cancelling and expiring end a session that is pending or authorized. */
  lemma EndsExactly(rows: Table, kind: Kind, flow: Flow, state: State, sanitized: string, now: int, cancelled: bool)
    ensures var done := if cancelled then Cancel(rows, kind, flow, state, sanitized, now)
                        else Expire(rows, kind, flow, state, sanitized, now);
            && (done.result.Ok? <==>
                 Names(rows, kind, flow, state)
                 && (rows[state].status == Pending || rows[state].status == Authorized))
            && ChangesOnly(rows, done.rows, state, done.result.Ok?)
            && (done.result.Ok? ==>
                 Becomes(rows[state], done.rows[state], if cancelled then Cancelled else Expired, now, sanitized)
                 && WithoutSecrets(done.rows[state], ""))
  {
  }

  /** What a new session needs. */
  predicate WellFormed(v: NewSession) {
    && v.state != "" && v.expiresAt.Some? && (v.status.None? || v.status == Some(Pending))
    && match v.flow
       case Device => v.pending.None?
       case CallbackPKCE =>
         && v.pending.Some? && v.pending.value.verifier != "" && v.pending.value.redirectUri != ""
         && v.pending.value.expiresAt.Some? && v.device == NO_DEVICE && v.authorization.None?
  }

  /** A session is created when its state and its session id are new, and then waits with what it was given. */
  lemma CreatesExactly(rows: Table, v: NewSession, generatedId: string, now: int)
    ensures var done := Create(rows, v, generatedId, now);
            var id := if v.sessionId == "" then generatedId else v.sessionId;
            && (done.result.Ok? <==>
                 WellFormed(v) && v.state !in rows
                 && forall s :: s in rows ==>
                      !(rows[s].sessionId == id && rows[s].kind == v.kind && rows[s].flow == v.flow))
            && (done.result.Err? ==> done.rows == rows)
            && (done.result.Ok? ==>
                 && v.state in done.rows && done.rows == rows[v.state := done.rows[v.state]]
                 && var row := done.rows[v.state];
                    && row == Row(v.kind, v.flow, id, row.payload, Pending, v.expiresAt.value, now, now, v.sanitized)
                    && row.payload == Payload(if v.flow == Device then v.state else "", v.device, v.pending,
                                              v.authorization, v.accountId))
  {
  }

  /** By session id the same rows can be ended as by state. */
  lemma EndsBySession(rows: Table, found: State, to: Status, sessionId: string, sanitized: string, now: int)
    requires found in rows
    ensures var done := MutateBySession(rows, Some(found), sessionId, now, {Pending, Authorized},
                                        ToTerminal(to, sanitized));
            && (done.result.Ok? <==>
                 !Blank(sessionId) && (rows[found].status == Pending || rows[found].status == Authorized))
            && ChangesOnly(rows, done.rows, found, done.result.Ok?)
            && (done.result.Ok? ==>
                 Becomes(rows[found], done.rows[found], to, now, sanitized) && WithoutSecrets(done.rows[found], ""))
  {
  }

  /** The sweep expires every pending session of its flow whose expiry has come, and no other. */
  lemma SweepsExactly(rows: Table, kind: Kind, flow: Flow, now: int, s: State)
    ensures var swept := ExpirePendingBefore(rows, kind, flow, now);
            && (s in swept <==> s in rows)
            && (s in rows ==>
                 if rows[s].kind == kind && rows[s].flow == flow
                    && rows[s].status == Pending && rows[s].expiresAt <= now
                 then Becomes(rows[s], swept[s], Expired, now, "Devin authorization expired.")
                      && WithoutSecrets(swept[s], "")
                 else swept[s] == rows[s])
  {
  }

  /** Restart recovery fails consumed callback sessions, whose payload it leaves. */
  lemma RecoversExactly(rows: Table, kind: Kind, flow: Flow, state: State, sanitized: string, now: int)
    ensures var done := FailConsumedByHash(rows, kind, flow, state, sanitized, now);
            && (done.result.Ok? <==>
                 flow == CallbackPKCE && state in rows && rows[state].kind == kind && rows[state].flow == flow
                 && rows[state].status == Consumed)
            && ChangesOnly(rows, done.rows, state, done.result.Ok?)
            && (done.result.Ok? ==>
                 Becomes(rows[state], done.rows[state], Failed, now, sanitized)
                 && done.rows[state].payload == rows[state].payload)
  {
  }

  /** What a cleanup may remove: ended sessions and elapsed pending ones, and authorized ones a day later. */
  lemma RemovableExactly(rows: Table, before: int, s: State)
    ensures s in AllRemovable(rows, before) <==>
              s in rows &&
              match rows[s].status
              case Pending => rows[s].expiresAt < before
              case Authorized => rows[s].updatedAt + 86400 < before
              case Consumed => false
              case _ => rows[s].updatedAt < before
  {
  }

  // ----- Expiry -----

  predicate IsUsed(status: Status) {
    status == Consumed || status == Authorized
  }

  lemma ChangesUse(rows: Table, op: Op, s: State)
    requires op.AuthorizeOp? || op.ConsumeOp? || op.CompleteOp? || op.PublishOp?
    requires s in rows && s in Step(rows, op) && rows[s].status == Pending && IsUsed(Step(rows, op)[s].status)
    ensures (op.ConsumeOp? || op.AuthorizeOp?) && op.state == s && op.now < rows[s].expiresAt
  {
    hide Authorize, Consume, Complete, CompleteConsumedDevin, WithoutSecrets;
    match op {
      case AuthorizeOp(kind, flow, state, a, now) => AuthorizesExactly(rows, kind, flow, state, a, now);
      case ConsumeOp(kind, flow, state, now) => ConsumesExactly(rows, kind, flow, state, now);
      case CompleteOp(kind, flow, state, accountId, now) => CompletesExactly(rows, kind, flow, state, accountId, now);
      case PublishOp(state, accountId, now) => PublishesExactly(rows, state, accountId, now);
    }
  }

  lemma EndsUseNothing(rows: Table, op: Op, s: State)
    requires op.FailOp? || op.CancelOp? || op.ExpireOp? || op.SessionOp?
    requires s in rows && s in Step(rows, op) && rows[s].status == Pending
    ensures !IsUsed(Step(rows, op)[s].status)
  {
    hide Fail, Cancel, Expire, MutateBySession, WithoutSecrets;
    match op {
      case FailOp(kind, flow, state, sanitized, now) => FailsExactly(rows, kind, flow, state, sanitized, now);
      case CancelOp(kind, flow, state, sanitized, now) => EndsExactly(rows, kind, flow, state, sanitized, now, true);
      case ExpireOp(kind, flow, state, sanitized, now) => EndsExactly(rows, kind, flow, state, sanitized, now, false);
      case SessionOp(to, found, sessionId, sanitized, now) =>
        if found in rows { EndsBySession(rows, found, to, sessionId, sanitized, now); }
    }
  }

  lemma BulkUsesNothing(rows: Table, op: Op, s: State)
    requires op.CreateOp? || op.ExpirePendingOp? || op.FailConsumedOp? || op.CleanupOp?
    requires s in rows && s in Step(rows, op) && rows[s].status == Pending
    ensures !IsUsed(Step(rows, op)[s].status)
  {
    hide Create, ExpirePendingBefore, FailConsumedByHash, WithoutSecrets;
    match op {
      case CreateOp(v, generatedId, now) => CreatesExactly(rows, v, generatedId, now);
      case ExpirePendingOp(kind, flow, now) => SweepsExactly(rows, kind, flow, now, s);
      case FailConsumedOp(kind, flow, state, sanitized, now) =>
        RecoversExactly(rows, kind, flow, state, sanitized, now);
      case CleanupOp(victims, before) =>
    }
  }

  /** No operation consumes or authorizes a session at or after its expiry. */
  lemma UsedInTime(rows: Table, op: Op, s: State)
    requires s in rows && s in Step(rows, op) && rows[s].status == Pending && IsUsed(Step(rows, op)[s].status)
    ensures (op.ConsumeOp? || op.AuthorizeOp?) && op.state == s && op.now < rows[s].expiresAt
  {
    hide Step, IsUsed;
    if op.AuthorizeOp? || op.ConsumeOp? || op.CompleteOp? || op.PublishOp? {
      ChangesUse(rows, op, s);
    } else if op.FailOp? || op.CancelOp? || op.ExpireOp? || op.SessionOp? {
      EndsUseNothing(rows, op, s);
    } else {
      BulkUsesNothing(rows, op, s);
    }
  }
}
