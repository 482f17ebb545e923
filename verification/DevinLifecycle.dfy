/**
 The Devin login lifecycle as a machine: completions that run at the same time,
 each a program of single transactions, next to the sessions, the accounts, the
 exchanges made so far and everything else that may touch the session table.
 */
module DevinLifecycleSteps {
  import opened Basics
  import opened Provider
  import opened OAuthSessionSteps
  import opened OAuthInvariants

  const FAILED_MESSAGE := "Devin authorization failed."
  const CORRUPT_MESSAGE := "Devin authorization could not be completed."
  const RESTART_MESSAGE := "Devin authorization was interrupted."
  const COMPENSATION_MESSAGE := "oauth completion failed"

  /** Accounts by identity fingerprint, and the ids of all upserts in order. */
  datatype Accounts = Accounts(ids: map<string, string>, upserts: seq<string>)

  /** Publishing an account again keeps its id. */
  function UpsertLogin(accounts: Accounts, fingerprint: string, freshId: string): Accounts {
    var id := UpsertedId(accounts, fingerprint, freshId);
    Accounts(accounts.ids[fingerprint := id], accounts.upserts + [id])
  }

  function UpsertedId(accounts: Accounts, fingerprint: string, freshId: string): string {
    if fingerprint in accounts.ids then accounts.ids[fingerprint] else freshId
  }

  /** Where the database gives up during a transaction, if anywhere. */
  datatype Fault = NoFault | AtAccount | AtSession | AtCommit

  datatype Publication = Publication(rows: Table, accounts: Accounts, result: Result<string, Error>)

  /** Both tables are written, or neither. */
  function Publish(rows: Table, accounts: Accounts, state: State, fingerprint: string, freshId: string, now: int,
        fault: Fault): Publication {
    var id := UpsertedId(accounts, fingerprint, freshId);
    var done := CompleteConsumedDevin(rows, state, id, now);
    if fault != NoFault || done.result.Err? then Publication(rows, accounts, Err(NoRows))
    else Publication(done.rows, UpsertLogin(accounts, fingerprint, freshId), Ok(id))
  }

  /** Failing a session after an error, which the database may refuse: then the session stays as it is. */
  function Finalize(rows: Table, state: State, sanitized: string, now: int, refused: bool): Table {
    if refused then rows else Fail(rows, Devin, CallbackPKCE, state, sanitized, now).rows
  }

  datatype Exchange = Exchanged(state: State, code: string, verifier: string)

  datatype Answer = Rejected | Credentials(fingerprint: string)

  datatype Ending = Published(accountId: string) | Refused(reason: string)

  /** A completion between two of its transactions. */
  datatype Actor =
    | Asked(state: State, sessionId: string, code: string)
    | Overdue(state: State, sessionId: string, code: string)
    | Reading(state: State, sessionId: string, code: string)
    | Ready(state: State, code: string)
    | Holding(state: State, code: string, verifier: string)
    | Failing(state: State)
    | Saving(state: State, fingerprint: string)
    | Compensating(state: State)
    | Denied(state: State)
    | DeniedOverdue(state: State)
    | DeniedReading(state: State)
    | Suspect(state: State)
    | Corrupt(state: State)
    | Finished(ending: Ending)

  /**
   What the machine decides for one step: the clock, the answer to an exchange, a fault, whether the database refuses to
   fail a session, and an account id nobody has.
   */
  datatype Choice = Choice(now: int, answer: Answer, fault: Fault, refused: bool, freshId: string)

  /** What one completion can see and change. */
  datatype View = View(rows: Table, accounts: Accounts, exchanges: seq<Exchange>, actor: Actor)

  function LookUp(rows: Table, state: State): Result<Row, Error> {
    Get(rows, Devin, CallbackPKCE, state)
  }

  /** The checks between reading a session and consuming it. */
  function Checked(row: Row, state: State, sessionId: string, code: string): Actor {
    if sessionId != "" && row.sessionId != sessionId then Finished(Refused("not found"))
    else if row.status == Expired then Finished(Refused("expired"))
    else if Blank(code) then Finished(Refused("code required"))
    else Ready(state, code)
  }

  function Overran(row: Row, now: int): bool {
    row.status == Pending && now >= row.expiresAt
  }

  /** One transaction or one exchange of a completion. */
  function Advance(v: View, c: Choice): View {
    match v.actor
    case Asked(state, sessionId, code) =>
      var found := LookUp(v.rows, state);
      v.(actor := if found.Err? then Finished(Refused("not found"))
                  else if Overran(found.value, c.now) then Overdue(state, sessionId, code)
                  else Checked(found.value, state, sessionId, code))
    case Overdue(state, sessionId, code) =>
      v.(rows := Expire(v.rows, Devin, CallbackPKCE, state, EXPIRED_MESSAGE, c.now).rows,
         actor := Reading(state, sessionId, code))
    case Reading(state, sessionId, code) =>
      var found := LookUp(v.rows, state);
      v.(actor := if found.Err? then Finished(Refused("not found")) else Checked(found.value, state, sessionId, code))
    case Ready(state, code) =>
      var consumed := Consume(v.rows, Devin, CallbackPKCE, state, c.now);
      v.(rows := consumed.rows,
         actor := if consumed.result.Ok? then Holding(state, code, consumed.result.value.verifier) else Denied(state))
    case Holding(state, code, verifier) =>
      v.(exchanges := v.exchanges + [Exchanged(state, code, verifier)],
         actor := match c.answer
                  case Rejected => Failing(state)
                  case Credentials(fingerprint) => Saving(state, fingerprint))
    case Failing(state) =>
      v.(rows := Finalize(v.rows, state, FAILED_MESSAGE, c.now, c.refused),
         actor := Finished(Refused("exchange failed")))
    case Saving(state, fingerprint) =>
      var p := Publish(v.rows, v.accounts, state, fingerprint, c.freshId, c.now, c.fault);
      v.(rows := p.rows, accounts := p.accounts,
         actor := if p.result.Ok? then Finished(Published(p.result.value)) else Compensating(state))
    case Compensating(state) =>
      v.(rows := Finalize(v.rows, state, COMPENSATION_MESSAGE, c.now, c.refused),
         actor := Finished(Refused("not saved")))
    case Denied(state) =>
      var found := LookUp(v.rows, state);
      v.(actor := if found.Ok? && Overran(found.value, c.now) then DeniedOverdue(state)
                  else if found.Ok? && found.value.status == Expired then Finished(Refused("expired"))
                  else Suspect(state))
    case DeniedOverdue(state) =>
      v.(rows := Expire(v.rows, Devin, CallbackPKCE, state, EXPIRED_MESSAGE, c.now).rows, actor := DeniedReading(state))
    case DeniedReading(state) =>
      var found := LookUp(v.rows, state);
      v.(actor := if found.Ok? && found.value.status == Expired then Finished(Refused("expired")) else Suspect(state))
    case Suspect(state) =>
      var found := LookUp(v.rows, state);
      v.(actor := if found.Ok? && found.value.status == Pending then Corrupt(state)
         else Finished(Refused("already used")))
    case Corrupt(state) =>
      v.(rows := Cancel(v.rows, Devin, CallbackPKCE, state, CORRUPT_MESSAGE, c.now).rows,
         actor := Finished(Refused("already used")))
    case Finished(_) => v
  }

  /** How many steps a completion has left, at most. */
  function StepsLeft(a: Actor): nat {
    match a
    case Asked(_, _, _) => 13
    case Overdue(_, _, _) => 12
    case Reading(_, _, _) => 11
    case Ready(_, _) => 10
    case Holding(_, _, _) => 9
    case Failing(_) => 1
    case Saving(_, _) => 2
    case Compensating(_) => 1
    case Denied(_) => 5
    case DeniedOverdue(_) => 4
    case DeniedReading(_) => 3
    case Suspect(_) => 2
    case Corrupt(_) => 1
    case Finished(_) => 0
  }

  lemma StepsDown(v: View, c: Choice)
    ensures !v.actor.Finished? ==> StepsLeft(Advance(v, c).actor) < StepsLeft(v.actor)
  {
    hide Get, Expire, Finalize, Cancel, Publish, Consume;
  }

  /** What one call meets: its readings of the clock, one for each part of the way, and how the rest turns out. */
  datatype Course = Course(
    asked: int, consuming: int, denied: int, suspect: int,
    answer: Answer, fault: Fault, refused: bool, freshId: string)

  function ReadingFor(c: Course, a: Actor): int {
    if a.Asked? || a.Overdue? || a.Reading? then c.asked
    else if a.Denied? || a.DeniedOverdue? || a.DeniedReading? then c.denied
    else if a.Suspect? || a.Corrupt? then c.suspect
    else c.consuming
  }

  function ChoiceFor(c: Course, a: Actor): Choice {
    Choice(ReadingFor(c, a), c.answer, c.fault, c.refused, c.freshId)
  }

  function OneStep(v: View, c: Course): View {
    Advance(v, ChoiceFor(c, v.actor))
  }

  /** A completion that nothing interrupts. */
  ghost function Alone(v: View, c: Course): View
    decreases StepsLeft(v.actor)
  {
    StepsDown(v, ChoiceFor(c, v.actor));
    if v.actor.Finished? then v else Alone(OneStep(v, c), c)
  }

  // ----- Restart recovery -----

  predicate IsDevinLogin(row: Row) {
    row.kind == Devin && row.flow == CallbackPKCE
  }

  function Interrupted(row: Row, now: int): Row {
    row.(status := OAuthSessionSteps.Failed, updatedAt := now, sanitized := RESTART_MESSAGE)
  }

  /** The rows a restart lists: sessions that may still be used, and those caught between consuming and completing. */
  predicate Listed(row: Row, now: int) {
    IsDevinLogin(row) && ((row.status == Pending && row.expiresAt > now) || row.status == Consumed)
  }

  predicate CanGoOn(row: Row, now: int) {
    IsDevinLogin(row) && row.status == Pending && row.expiresAt > now
  }

  function ResumedRow(row: Row, now: int): Row {
    if Elapsed(row, Devin, CallbackPKCE, now) then ExpiredRow(row, now)
    else if IsDevinLogin(row) && row.status == Consumed then Interrupted(row, now)
    else row
  }

  function Resumed(rows: Table, now: int): Table {
    map state | state in rows :: ResumedRow(rows[state], now)
  }

  function Recovered(row: Row, listed: bool, now: int): Row {
    if listed && row.status == Consumed then Interrupted(row, now) else row
  }

  /** How a row after the sweep relates to the row before it. */
  predicate Resumes(before: Row, swept: Row, now: int) {
    && ResumedRow(before, now) == Recovered(swept, Listed(swept, now), now)
    && (CanGoOn(before, now) <==> Listed(swept, now) && swept.status != Consumed)
    && (Listed(swept, now) ==> IsDevinLogin(swept))
  }

  lemma SweptRow(row: Row, now: int)
    ensures Resumes(row, if Elapsed(row, Devin, CallbackPKCE, now) then ExpiredRow(row, now) else row, now)
  {
  }

  // ----- The machine -----

  /** Sessions begun so far with their verifiers, and completions at work. */
  datatype World = World(
    rows: Table, accounts: Accounts, exchanges: seq<Exchange>, begun: map<State, string>, actors: map<nat, Actor>)

  const START := World(map[], Accounts(map[], []), [], map[], map[])

  datatype Move =
    | Begin(state: State, sessionId: string, verifier: string, redirectUri: string, expiresAt: int, now: int)
    | Call(id: nat, state: State, sessionId: string, code: string)
    | Act(id: nat, choice: Choice)
    | Elsewhere(op: Op)
    | Restart

  /** Consuming and completing a Devin callback session is the completions' business alone. */
  predicate IsElsewhere(op: Op) {
    match op
    case CreateOp(v, _, _) => !(v.kind == Devin && v.flow == CallbackPKCE)
    case ConsumeOp(kind, flow, _, _) => !(kind == Devin && flow == CallbackPKCE)
    case CompleteOp(kind, flow, _, _, _) => !(kind == Devin && flow == CallbackPKCE)
    case PublishOp(_, _, _) => false
    case _ => true
  }

  function SessionToBegin(state: State, sessionId: string, verifier: string, redirectUri: string,
        expiresAt: int): NewSession {
    NewSession(Devin, CallbackPKCE, state, sessionId, NO_DEVICE,
               Some(PendingPayload(verifier, redirectUri, Some(expiresAt))), None, "",
               None, Some(expiresAt), "")
  }

  /** States are random: a session never begins under one that has been used. */
  predicate Possible(w: World, m: Move) {
    match m
    case Begin(state, _, _, _, _, _) => state !in w.begun
    case Call(id, _, _, _) => id !in w.actors
    case Act(id, _) => id in w.actors
    case Elsewhere(op) => IsElsewhere(op)
    case Restart => true
  }

  function ViewOf(w: World, id: nat): View
    requires id in w.actors
  {
    View(w.rows, w.accounts, w.exchanges, w.actors[id])
  }

  /** The world after a move; an impossible move changes nothing. */
  ghost function Next(w: World, m: Move): World {
    if !Possible(w, m) then w
    else
      match m
      case Begin(state, sessionId, verifier, redirectUri, expiresAt, now) =>
        var created := Create(w.rows, SessionToBegin(state, sessionId, verifier, redirectUri, expiresAt), sessionId,
                              now);
        if created.result.Ok? then w.(rows := created.rows, begun := w.begun[state := verifier]) else w
      case Call(id, state, sessionId, code) => w.(actors := w.actors[id := Asked(state, sessionId, code)])
      case Act(id, choice) => Acted(w, id, Advance(ViewOf(w, id), choice))
      case Elsewhere(op) => w.(rows := Step(w.rows, op))
      case Restart => w.(actors := map[])
  }

  function Acted(w: World, id: nat, v: View): World {
    World(v.rows, v.accounts, v.exchanges, w.begun, w.actors[id := v.actor])
  }

  ghost function After(moves: seq<Move>): World {
    if moves == [] then START else Next(After(moves[..|moves| - 1]), moves[|moves| - 1])
  }

  /** A completion that is the only one to move reaches exactly what it reaches alone. */
  ghost function OnlyActing(w: World, id: nat, c: Course): (after: World)
    requires id in w.actors
    ensures id in after.actors && ViewOf(after, id) == Alone(ViewOf(w, id), c)
    decreases StepsLeft(w.actors[id])
  {
    var choice := ChoiceFor(c, w.actors[id]);
    StepsDown(ViewOf(w, id), choice);
    if w.actors[id].Finished? then w else OnlyActing(Next(w, Act(id, choice)), id, c)
  }
}

/** The lifecycle as the program runs it: stores, client and transaction behind one completion method. */
module DevinLifecycle {
  import opened Basics
  import opened Provider
  import opened OAuthSessionSteps
  import opened OAuthSessions
  import opened Steps = DevinLifecycleSteps

  class AccountRepository {
    var table: Accounts

    constructor ()
      ensures table == Accounts(map[], [])
    {
      table := Accounts(map[], []);
    }

    method UpsertLogin(fingerprint: string, freshId: string) returns (id: string)
      modifies this
      ensures table == Steps.UpsertLogin(old(table), fingerprint, freshId)
      ensures id == UpsertedId(old(table), fingerprint, freshId)
    {
      id := if fingerprint in table.ids then table.ids[fingerprint] else freshId;
      table := Accounts(table.ids[fingerprint := id], table.upserts + [id]);
    }
  }

  /** The exchange endpoint; what it answers is given. */
  class Client {
    var exchanges: seq<Exchange>

    constructor ()
      ensures exchanges == []
    {
      exchanges := [];
    }

    method Exchange(state: State, code: string, verifier: string, answer: Answer) returns (token: Answer)
      modifies this
      ensures exchanges == old(exchanges) + [Exchanged(state, code, verifier)] && token == answer
    {
      exchanges := exchanges + [Exchanged(state, code, verifier)];
      token := answer;
    }
  }

  class DevinOAuthTransaction {
    const accounts: AccountRepository
    const oauth: OAuthSessionRepository

    constructor (accounts: AccountRepository, oauth: OAuthSessionRepository)
      ensures this.accounts == accounts && this.oauth == oauth
    {
      this.accounts, this.oauth := accounts, oauth;
    }

    /** The transaction: whatever fails in it, both tables are rolled back. */
    method TryComplete(state: State, fingerprint: string, freshId: string, now: int,
          fault: Fault) returns (created: Result<string, Error>)
      modifies accounts, oauth
      ensures Publication(oauth.rows, accounts.table, created)
           == Publish(old(oauth.rows), old(accounts.table), state, fingerprint, freshId, now, fault)
    {
      if fault == AtAccount { return Err(NoRows); }
      var savedAccounts, savedRows := accounts.table, oauth.rows;
      var id := accounts.UpsertLogin(fingerprint, freshId);
      if fault == AtSession {
        accounts.table := savedAccounts;
        return Err(NoRows);
      }
      var done := oauth.CompleteConsumedDevin(state, id, now);
      if done.Err? || fault == AtCommit {
        accounts.table, oauth.rows := savedAccounts, savedRows;
        return Err(NoRows);
      }
      return Ok(id);
    }

    /** A failed transaction is compensated by failing the session, if that succeeds; it is never pending again. */
    method Complete(state: State, fingerprint: string, freshId: string, now: int,
          fault: Fault, refused: bool) returns (created: Result<string, Error>)
      modifies accounts, oauth
      ensures var p := Publish(old(oauth.rows), old(accounts.table), state, fingerprint, freshId, now, fault);
              && created == p.result && accounts.table == p.accounts
              && oauth.rows == if created.Ok? then p.rows
                 else Finalize(p.rows, state, COMPENSATION_MESSAGE, now, refused)
    {
      hide Publish, Fail;
      created := TryComplete(state, fingerprint, freshId, now, fault);
      if created.Err? && !refused {
        var finalized := oauth.Fail(Devin, CallbackPKCE, state, COMPENSATION_MESSAGE, now);
      }
    }
  }

  class ProviderLifecycle {
    const sessions: OAuthSessionRepository
    const client: Client
    const transaction: DevinOAuthTransaction

    constructor (sessions: OAuthSessionRepository, client: Client, transaction: DevinOAuthTransaction)
      ensures this.sessions == sessions && this.client == client && this.transaction == transaction
    {
      this.sessions, this.client, this.transaction := sessions, client, transaction;
    }

    ghost predicate Wired()
    {
      transaction.oauth == sessions
    }

    ghost function Now(actor: Actor): View
      reads sessions, client, transaction.accounts
    {
      View(sessions.rows, transaction.accounts.table, client.exchanges, actor)
    }

    /** The session, expired first when it is overdue; an expiry that finds nothing to do is ignored. */
    method SessionWithExpiry(state: State, now: int) returns (session: Result<Row, Error>)
      modifies sessions
      ensures var found := LookUp(old(sessions.rows), state);
              if found.Ok? && Overran(found.value, now)
              then sessions.rows == Expire(old(sessions.rows), Devin, CallbackPKCE, state, EXPIRED_MESSAGE, now).rows
                   && session == LookUp(sessions.rows, state)
              else sessions.rows == old(sessions.rows) && session == found
    {
      session := sessions.Get(Devin, CallbackPKCE, state);
      if session.Err? || session.value.status != Pending || now < session.value.expiresAt { return; }
      var expired := sessions.Expire(Devin, CallbackPKCE, state, EXPIRED_MESSAGE, now);
      session := sessions.Get(Devin, CallbackPKCE, state);
    }

    method FailCorruptPending(state: State, now: int)
      modifies sessions
      ensures var found := LookUp(old(sessions.rows), state);
              sessions.rows == if found.Ok? && found.value.status == Pending
                               then Cancel(old(sessions.rows), Devin, CallbackPKCE, state, CORRUPT_MESSAGE, now).rows
                               else old(sessions.rows)
    {
      var session := sessions.Get(Devin, CallbackPKCE, state);
      if session.Ok? && session.value.status == Pending {
        var cancelled := sessions.Cancel(Devin, CallbackPKCE, state, CORRUPT_MESSAGE, now);
      }
    }

    /** An attempt to fail the session, whose own failure is ignored. */
    method FailDetached(state: State, sanitized: string, now: int, refused: bool)
      modifies sessions
      ensures sessions.rows == Finalize(old(sessions.rows), state, sanitized, now, refused)
    {
      if !refused {
        var failed := sessions.Fail(Devin, CallbackPKCE, state, sanitized, now);
      }
    }

    /** Fails the consumed ones among some Devin logins, in no particular order, and returns the others. */
    method FailInterrupted(listed: set<State>, now: int) returns (others: set<State>)
      requires forall state :: state in listed ==> state in sessions.rows && IsDevinLogin(sessions.rows[state])
      modifies sessions
      ensures sessions.rows.Keys == old(sessions.rows).Keys
      ensures forall state :: state in sessions.rows ==>
                sessions.rows[state] == Recovered(old(sessions.rows)[state], state in listed, now)
      ensures forall state :: state in others <==> state in listed && old(sessions.rows)[state].status != Consumed
    {
      hide IsDevinLogin, Interrupted;
      ghost var before := sessions.rows;
      var left := listed;
      others := {};
      while left != {}
        invariant left <= listed && sessions.rows.Keys == before.Keys
        invariant forall state :: state in before ==>
                    sessions.rows[state] == Recovered(before[state], state in listed && state !in left, now)
        invariant forall state ::
             state in others <==> state in listed && state !in left && before[state].status != Consumed
        decreases |left|
      {
        var state := Pick(left);
        assert sessions.rows[state] == before[state];
        if sessions.rows[state].status == Consumed {
          InterruptedSays(sessions.rows, state, now);
          var failed := sessions.FailConsumedByHash(Devin, CallbackPKCE, state, RESTART_MESSAGE, now);
        } else {
          others := others + {state};
        }
        left := left - {state};
      }
    }

    /** Restart recovery: overdue sessions expire, consumed ones fail, the rest can go on. */
    method Resume(now: int) returns (resumable: set<State>)
      modifies sessions
      ensures sessions.rows == Resumed(old(sessions.rows), now)
      ensures forall state ::
              state in resumable <==> state in old(sessions.rows) && CanGoOn(old(sessions.rows)[state], now)
    {
      hide ResumedRow, CanGoOn, ExpiredRow, Elapsed, Recovered, Listed;
      ghost var before := sessions.rows;
      var swept := sessions.ExpirePendingBefore(Devin, CallbackPKCE, now);
      forall state | state in before ensures Resumes(before[state], sessions.rows[state], now) {
        SweptRow(before[state], now);
      }
      var listed := set state | state in sessions.rows && Listed(sessions.rows[state], now);
      ghost var expired := sessions.rows;
      resumable := FailInterrupted(listed, now);
    }

    /** From consuming the session to the account. */
    method CompleteReady(state: State, code: string, c: Course) returns (ending: Ending)
      requires Wired()
      modifies sessions, client, transaction.accounts
      ensures Now(Finished(ending)) == Alone(old(Now(Ready(state, code))), c)
    {
      hide Consume, Expire, Fail, Finalize, Cancel, Publish, Get;
      ghost var v0 := Now(Ready(state, code));
      ghost var v1 := OneStep(v0, c);
      assert Alone(v0, c) == Alone(v1, c);
      var pending := sessions.Consume(Devin, CallbackPKCE, state, c.consuming);
      if pending.Err? {
        ConsumeFails(v0.rows, state, c.consuming);
        DeniedAlone(v1, c, state);
        var session := SessionWithExpiry(state, c.denied);
        if session.Ok? && session.value.status == Expired { return Refused("expired"); }
        FailCorruptPending(state, c.suspect);
        return Refused("already used");
      }
      assert v1 == Now(Holding(state, code, pending.value.verifier));
      ghost var v2 := OneStep(v1, c);
      assert Alone(v1, c) == Alone(v2, c);
      var token := client.Exchange(state, code, pending.value.verifier, c.answer);
      if token.Rejected? {
        assert Alone(v2, c) == OneStep(v2, c) by { LastStep(v2, c); }
        FailDetached(state, FAILED_MESSAGE, c.consuming, c.refused);
        return Refused("exchange failed");
      }
      SavingAlone(v2, c);
      var created := transaction.Complete(state, token.fingerprint, c.freshId, c.consuming, c.fault, c.refused);
      if created.Err? { return Refused("not saved"); }
      return Published(created.value);
    }

    /** A callback: checked, then completed. */
    method Complete(state: State, sessionId: string, code: string, c: Course) returns (ending: Ending)
      requires Wired()
      modifies sessions, client, transaction.accounts
      ensures Blank(state) ==> Now(Finished(ending)) == old(Now(Finished(Refused("state required"))))
      ensures !Blank(state) ==> Now(Finished(ending)) == Alone(old(Now(Asked(state, sessionId, code))), c)
    {
      if Blank(state) { return Refused("state required"); }
      hide Consume, Expire, Finalize, Cancel, Publish, Get, Blank;
      ghost var v0 := Now(Asked(state, sessionId, code));
      AskedAlone(v0, c);
      var session := SessionWithExpiry(state, c.asked);
      if session.Err? { return Refused("not found"); }
      if sessionId != "" && session.value.sessionId != sessionId { return Refused("not found"); }
      if session.value.status == Expired { return Refused("expired"); }
      if Blank(code) { return Refused("code required"); }
      ending := CompleteReady(state, code, c);
    }
  }

  lemma InterruptedSays(rows: Table, state: State, now: int)
    requires state in rows && IsDevinLogin(rows[state]) && rows[state].status == Consumed
    ensures FailConsumedByHash(rows, Devin, CallbackPKCE, state, RESTART_MESSAGE, now).rows
         == rows[state := Interrupted(rows[state], now)]
  {
  }

  lemma ConsumeFails(rows: Table, state: State, now: int)
    ensures var done := Consume(rows, Devin, CallbackPKCE, state, now); done.result.Err? ==> done.rows == rows
  {
  }

  lemma LastStep(v: View, c: Course)
    requires !v.actor.Finished? && OneStep(v, c).actor.Finished?
    ensures Alone(v, c) == OneStep(v, c)
  {
    hide OneStep;
    assert Alone(OneStep(v, c), c) == OneStep(v, c);
  }

  /** Three of the machine's steps, or fewer, bring a denied completion to its end. */
  lemma DeniedAlone(v: View, c: Course, state: State)
    requires v.actor == Denied(state)
    ensures var found := LookUp(v.rows, state);
            var rows := if found.Ok? && Overran(found.value, c.denied)
                        then Expire(v.rows, Devin, CallbackPKCE, state, EXPIRED_MESSAGE, c.denied).rows
                        else v.rows;
            var session := LookUp(rows, state);
            Alone(v, c) == if session.Ok? && session.value.status == Expired
                           then v.(rows := rows, actor := Finished(Refused("expired")))
                           else if session.Ok? && session.value.status == Pending
                           then v.(rows := Cancel(rows, Devin, CallbackPKCE, state, CORRUPT_MESSAGE, c.suspect).rows,
                                   actor := Finished(Refused("already used")))
                           else v.(rows := rows, actor := Finished(Refused("already used")))
  {
    hide Expire, Cancel, Get;
    var v1 := OneStep(v, c);
    assert Alone(v, c) == Alone(v1, c);
    if v1.actor.Finished? {
      LastStep(v, c);
    } else if v1.actor.Suspect? {
      SuspectAlone(v1, c);
    } else {
      var v2 := OneStep(v1, c);
      var v3 := OneStep(v2, c);
      assert Alone(v1, c) == Alone(v2, c);
      if v3.actor.Finished? {
        LastStep(v2, c);
      } else {
        assert Alone(v2, c) == Alone(v3, c);
        SuspectAlone(v3, c);
      }
    }
  }

  lemma SuspectAlone(v: View, c: Course)
    requires v.actor.Suspect?
    ensures var found := LookUp(v.rows, v.actor.state);
            Alone(v, c) == if found.Ok? && found.value.status == Pending
                           then v.(rows := Cancel(v.rows, Devin, CallbackPKCE, v.actor.state, CORRUPT_MESSAGE,
                                                  c.suspect).rows, actor := Finished(Refused("already used")))
                           else v.(actor := Finished(Refused("already used")))
  {
    hide Cancel, Get;
    var v1 := OneStep(v, c);
    if v1.actor.Finished? {
      LastStep(v, c);
    } else {
      assert Alone(v, c) == Alone(v1, c);
      LastStep(v1, c);
    }
  }

  lemma SavingAlone(v: View, c: Course)
    requires v.actor.Saving?
    ensures var s := v.actor.state;
            var p := Publish(v.rows, v.accounts, s, v.actor.fingerprint, c.freshId, c.consuming, c.fault);
            Alone(v, c)
              == if p.result.Ok?
                 then v.(rows := p.rows, accounts := p.accounts, actor := Finished(Published(p.result.value)))
                           else v.(rows := Finalize(p.rows, s, COMPENSATION_MESSAGE, c.consuming, c.refused),
                                   accounts := p.accounts,
                                   actor := Finished(Refused("not saved")))
  {
    hide Publish, Finalize;
    var v1 := OneStep(v, c);
    if v1.actor.Finished? {
      LastStep(v, c);
    } else {
      assert Alone(v, c) == Alone(v1, c);
      LastStep(v1, c);
    }
  }

  lemma AskedAlone(v: View, c: Course)
    requires v.actor.Asked?
    ensures var state, sessionId, code := v.actor.state, v.actor.sessionId, v.actor.code;
            var found := LookUp(v.rows, state);
            var rows := if found.Ok? && Overran(found.value, c.asked)
                        then Expire(v.rows, Devin, CallbackPKCE, state, EXPIRED_MESSAGE, c.asked).rows
                        else v.rows;
            var session := LookUp(rows, state);
            Alone(v, c) == if session.Err? then v.(rows := rows, actor := Finished(Refused("not found")))
                           else Alone(v.(rows := rows, actor := Checked(session.value, state, sessionId, code)), c)
  {
    hide Expire, Get, Checked;
    var v1 := OneStep(v, c);
    assert Alone(v, c) == Alone(v1, c);
    if v1.actor.Overdue? && v.actor.Asked? {
      var v2 := OneStep(v1, c);
      var v3 := OneStep(v2, c);
      assert Alone(v1, c) == Alone(v2, c);
      assert Alone(v2, c) == Alone(v3, c);
    }
  }
}
