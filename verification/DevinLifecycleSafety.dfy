/** Over all interleavings: a verifier is exchanged at most once, and accounts are published with their sessions. */
module DevinLifecycleSafety {
  import opened Basics
  import opened Provider
  import opened OAuthSessionSteps
  import opened OAuthInvariants
  import opened DevinLifecycleSteps

  predicate Mine(rows: Table, s: State) {
    Found(rows, Devin, CallbackPKCE, s)
  }

  predicate MineIn(rows: Table, s: State, status: Status) {
    Mine(rows, s) && rows[s].status == status
  }

  ghost predicate Spent(exchanges: seq<Exchange>, s: State) {
    exists i :: 0 <= i < |exchanges| && exchanges[i].state == s
  }

  predicate Holds(actors: map<nat, Actor>, id: nat, s: State) {
    id in actors && actors[id].Holding? && actors[id].state == s
  }

  /** A pending session still has its verifier; nobody holds it and it has not been exchanged. */
  ghost predicate PendingIntact(w: World) {
    forall s :: MineIn(w.rows, s, Pending) ==>
      && s in w.begun && w.rows[s].payload.pending.Some? && w.rows[s].payload.pending.value.verifier == w.begun[s]
      && !Spent(w.exchanges, s) && forall id :: !Holds(w.actors, id, s)
  }

  /** A verifier is held by one completion at most, before it is exchanged. */
  ghost predicate HeldOnce(w: World) {
    && (forall id, s :: Holds(w.actors, id, s) ==>
         s in w.begun && w.actors[id].verifier == w.begun[s] && !Spent(w.exchanges, s))
    && (forall i, j, s :: Holds(w.actors, i, s) && Holds(w.actors, j, s) ==> i == j)
  }

  ghost predicate ExchangedOnce(w: World) {
    && (forall i :: 0 <= i < |w.exchanges| ==>
         w.exchanges[i].state in w.begun && w.exchanges[i].verifier == w.begun[w.exchanges[i].state])
    && (forall i, j :: 0 <= i < j < |w.exchanges| ==> w.exchanges[i].state != w.exchanges[j].state)
  }

  /** Saving follows an exchange, and completed sessions name an account that was published. */
  ghost predicate PublishedAfterExchange(w: World) {
    && (forall id :: id in w.actors && w.actors[id].Saving? ==> Spent(w.exchanges, w.actors[id].state))
    && (forall s ::
         MineIn(w.rows, s, Completed) ==> Spent(w.exchanges, s) && w.rows[s].payload.accountId in w.accounts.upserts)
  }

  ghost predicate WorldValid(w: World) {
    TableValid(w.rows) && PendingIntact(w) && HeldOnce(w) && ExchangedOnce(w) && PublishedAfterExchange(w)
  }

  // ----- Operations that leave Devin logins alone -----

  /** No Devin session comes to be pending, consumed or completed. */
  predicate Quiet(before: Option<Row>, after: Option<Row>) {
    after.Some? && after.value.kind == Devin && after.value.flow == CallbackPKCE
      && after.value.status in {Pending, Consumed, Completed} ==>
      after == before
  }

  ghost predicate AllQuiet(before: Table, after: Table) {
    forall s :: Quiet(RowOf(before, s), RowOf(after, s))
  }

  lemma SameIsQuiet(row: Option<Row>)
    ensures Quiet(row, row)
  {
  }

  lemma MutateQuiet(rows: Table, kind: Kind, flow: Flow, state: State, now: int, from: set<Status>, change: Change)
    requires state in rows && rows[state].kind == kind && rows[state].flow == flow && rows[state].status in from ==>
               var changed := change(Scan(rows[state]));
               changed.Ok? ==> Quiet(Some(rows[state]), Some(Written(rows[state], changed.value, now)))
    ensures AllQuiet(rows, Mutate(rows, kind, flow, state, now, from, change).rows)
  {
    hide Quiet, Written, Scan;
    forall s ensures Quiet(RowOf(rows, s), RowOf(Mutate(rows, kind, flow, state, now, from, change).rows, s)) {
      SameIsQuiet(RowOf(rows, s));
    }
  }

  lemma TerminalIsQuiet(row: Row, to: Status, sanitized: string, now: int)
    requires to in {Failed, Expired, Cancelled}
    ensures Quiet(Some(row), Some(Written(row, ToTerminal(to, sanitized)(Scan(row)).value, now)))
  {
  }

  lemma OtherIsQuiet(row: Row, changed: Row, now: int)
    requires !(row.kind == Devin && row.flow == CallbackPKCE)
    ensures Quiet(Some(row), Some(Written(row, changed, now)))
  {
  }

  lemma TerminateQuiet(rows: Table, kind: Kind, flow: Flow, state: State, to: Status, sanitized: string, now: int,
        from: set<Status>)
    requires to in {Failed, Expired, Cancelled}
    ensures AllQuiet(rows, Terminate(rows, kind, flow, state, to, sanitized, now, from).rows)
  {
    hide Quiet, Written, Scan, AllQuiet;
    if state in rows {
      TerminalIsQuiet(rows[state], to, sanitized, now);
    }
    MutateQuiet(rows, kind, flow, state, now, from, ToTerminal(to, sanitized));
  }

  lemma ForeignQuiet(rows: Table, op: Op)
    requires IsElsewhere(op) && (op.CreateOp? || op.AuthorizeOp? || op.ConsumeOp? || op.CompleteOp?)
    ensures AllQuiet(rows, Step(rows, op))
  {
    hide Written, Scan, Mutate, Quiet;
    forall s ensures Quiet(RowOf(rows, s), RowOf(rows, s)) { SameIsQuiet(RowOf(rows, s)); }
    match op {
      case CreateOp(v, generatedId, now) => CreateQuiet(rows, v, generatedId, now);
      case AuthorizeOp(kind, flow, state, authorization, now) =>
        if state in rows && rows[state].kind == kind && rows[state].flow == flow && flow == Device {
          var changed := ToAuthorized(authorization, now)(Scan(rows[state]));
          if changed.Ok? { OtherIsQuiet(rows[state], changed.value, now); }
        }
        if flow == Device { MutateQuiet(rows, kind, flow, state, now, {Pending}, ToAuthorized(authorization, now)); }
      case ConsumeOp(kind, flow, state, now) =>
        if state in rows && rows[state].kind == kind && rows[state].flow == flow {
          var changed := ToConsumed(now)(Scan(rows[state]));
          if changed.Ok? { OtherIsQuiet(rows[state], changed.value, now); }
        }
        MutateQuiet(rows, kind, flow, state, now, {Pending}, ToConsumed(now));
      case CompleteOp(kind, flow, state, accountId, now) =>
        if state in rows && rows[state].kind == kind && rows[state].flow == flow {
          var changed := ToCompleted(accountId)(Scan(rows[state]));
          if changed.Ok? { OtherIsQuiet(rows[state], changed.value, now); }
        }
        MutateQuiet(rows, kind, flow, state, now, {CompleteFrom(flow)}, ToCompleted(accountId));
    }
  }

  lemma CreateQuiet(rows: Table, v: NewSession, generatedId: string, now: int)
    requires !(v.kind == Devin && v.flow == CallbackPKCE)
    ensures AllQuiet(rows, Create(rows, v, generatedId, now).rows)
  {
  }

  lemma BulkQuiet(rows: Table, op: Op)
    requires op.SessionOp? || op.ExpirePendingOp? || op.FailConsumedOp? || op.CleanupOp?
    ensures AllQuiet(rows, Step(rows, op))
  {
    hide Step, AllQuiet;
    if op.SessionOp? || op.ExpirePendingOp? { BulkEndQuiet(rows, op); } else { BulkRestQuiet(rows, op); }
  }

  lemma BulkEndQuiet(rows: Table, op: Op)
    requires op.SessionOp? || op.ExpirePendingOp?
    ensures AllQuiet(rows, Step(rows, op))
  {
    hide Quiet;
    forall s ensures Quiet(RowOf(rows, s), RowOf(Step(rows, op), s)) {
      SameIsQuiet(RowOf(rows, s));
      if s in rows {
        if op.SessionOp? { SessionRow(rows, op, s); } else { SweptQuiet(rows, op, s); }
      }
    }
    hide Step;
  }

  lemma SessionRow(rows: Table, op: Op, s: State)
    requires op.SessionOp? && s in rows
    ensures Quiet(Some(rows[s]), RowOf(Step(rows, op), s))
  {
    hide Written, Scan, Quiet;
    SameIsQuiet(Some(rows[s]));
    if op.to in {Cancelled, Expired} { TerminalIsQuiet(rows[s], op.to, op.sanitized, op.now); }
  }

  lemma SweptQuiet(rows: Table, op: Op, s: State)
    requires op.ExpirePendingOp? && s in rows
    ensures Quiet(Some(rows[s]), RowOf(Step(rows, op), s))
  {
    hide Written, Scan, Quiet, Elapsed;
    SameIsQuiet(Some(rows[s]));
    TerminalIsQuiet(rows[s], Expired, EXPIRED_MESSAGE, op.now);
  }

  lemma BulkRestQuiet(rows: Table, op: Op)
    requires op.FailConsumedOp? || op.CleanupOp?
    ensures AllQuiet(rows, Step(rows, op))
  {
    hide Quiet, Removable;
    forall s ensures Quiet(RowOf(rows, s), RowOf(Step(rows, op), s)) {
      SameIsQuiet(RowOf(rows, s));
      if s in rows {
        RemovedIsQuiet(rows[s]);
        if op.FailConsumedOp? { FailedIsQuiet(rows[s], op.now, op.sanitized); }
      }
    }
  }

  lemma FailedIsQuiet(row: Row, now: int, sanitized: string)
    ensures Quiet(Some(row), Some(row.(status := Failed, updatedAt := now, sanitized := sanitized)))
  {
  }

  lemma RemovedIsQuiet(row: Row)
    ensures Quiet(Some(row), None)
  {
  }

  lemma ElsewhereQuiet(rows: Table, op: Op)
    requires IsElsewhere(op)
    ensures AllQuiet(rows, Step(rows, op))
  {
    hide AllQuiet, Create, Authorize, Consume, Complete, CompleteConsumedDevin, MutateBySession, ExpirePendingBefore,
         FailConsumedByHash, Terminate;
    match op {
      case FailOp(kind, flow, state, sanitized, now) =>
        TerminateQuiet(rows, kind, flow, state, Failed, sanitized, now, FailFrom(flow));
      case CancelOp(kind, flow, state, sanitized, now) =>
        TerminateQuiet(rows, kind, flow, state, Cancelled, sanitized, now, {Pending, Authorized});
      case ExpireOp(kind, flow, state, sanitized, now) =>
        TerminateQuiet(rows, kind, flow, state, Expired, sanitized, now, {Pending, Authorized});
      case CreateOp(_, _, _) => ForeignQuiet(rows, op);
      case AuthorizeOp(_, _, _, _, _) => ForeignQuiet(rows, op);
      case ConsumeOp(_, _, _, _) => ForeignQuiet(rows, op);
      case CompleteOp(_, _, _, _, _) => ForeignQuiet(rows, op);
      case _ => BulkQuiet(rows, op);
    }
  }

  /** A quiet change of the table keeps the world valid. */
  lemma QuietKeeps(w: World, rows: Table)
    requires WorldValid(w) && TableValid(rows) && AllQuiet(w.rows, rows)
    ensures WorldValid(w.(rows := rows))
  {
    hide TableValid, HeldOnce, ExchangedOnce, Quiet, Spent;
    forall s, status | MineIn(rows, s, status) && status in {Pending, Completed}
      ensures MineIn(w.rows, s, status) && w.rows[s] == rows[s]
    {
      QuietSays(w.rows, rows, s);
    }
    SameHolders(w, rows);
  }

  lemma QuietSays(before: Table, after: Table, s: State)
    requires AllQuiet(before, after) && Mine(after, s) && after[s].status in {Pending, Consumed, Completed}
    ensures Mine(before, s) && before[s] == after[s]
  {
    assert Quiet(RowOf(before, s), RowOf(after, s));
  }

  lemma SameHolders(w: World, rows: Table)
    ensures HeldOnce(w.(rows := rows)) == HeldOnce(w) && ExchangedOnce(w.(rows := rows)) == ExchangedOnce(w)
  {
  }

  /** So does a completion moving on without taking or using a verifier. */
  lemma ActorKeeps(w: World, id: nat, actor: Actor)
    requires WorldValid(w) && !actor.Holding? && !actor.Saving?
    ensures WorldValid(w.(actors := w.actors[id := actor]))
  {
    hide TableValid, Spent, ExchangedOnce;
    var v := w.(actors := w.actors[id := actor]);
    forall i, s | Holds(v.actors, i, s) ensures Holds(w.actors, i, s) {}
    assert ExchangedOnce(v) by { SameExchanges(w, v); }
  }

  lemma SameExchanges(w: World, v: World)
    requires w.exchanges == v.exchanges && w.begun == v.begun
    ensures ExchangedOnce(w) == ExchangedOnce(v)
  {
  }

  // ----- The steps that matter -----

  lemma ConsumeSays(rows: Table, s: State, now: int)
    requires TableValid(rows)
    ensures var done := Consume(rows, Devin, CallbackPKCE, s, now);
            if done.result.Err? then done.rows == rows
            else
              && MineIn(rows, s, Pending) && rows[s].payload.pending == Some(done.result.value)
              && MineIn(done.rows, s, Consumed) && done.rows.Keys == rows.Keys
              && forall other :: other != s && other in rows ==> done.rows[other] == rows[other]
  {
  }

  /** The table with one pending session consumed. */
  ghost predicate ConsumedOne(before: Table, after: Table, s: State) {
    && MineIn(before, s, Pending) && MineIn(after, s, Consumed) && after.Keys == before.Keys
    && forall other :: other != s && other in before ==> after[other] == before[other]
  }

  lemma ConsumedPending(w: World, v: World, id: nat, s: State)
    requires PendingIntact(w) && ConsumedOne(w.rows, v.rows, s) && v.exchanges == w.exchanges && v.begun == w.begun
    requires id in v.actors && v.actors == w.actors[id := v.actors[id]] && v.actors[id].Holding?
    requires v.actors[id].state == s
    ensures PendingIntact(v)
  {
    hide Spent;
    forall t | MineIn(v.rows, t, Pending) ensures t != s && MineIn(w.rows, t, Pending) && w.rows[t] == v.rows[t] {}
    forall i, t | Holds(v.actors, i, t) && t != s ensures Holds(w.actors, i, t) {}
  }

  lemma ConsumedHeld(w: World, v: World, id: nat, s: State)
    requires PendingIntact(w) && HeldOnce(w) && MineIn(w.rows, s, Pending) && v.exchanges == w.exchanges
    requires v.begun == w.begun
    requires id in v.actors && v.actors == w.actors[id := v.actors[id]] && v.actors[id].Holding?
    requires v.actors[id].state == s
    requires s in w.begun && v.actors[id].verifier == w.begun[s]
    ensures HeldOnce(v)
  {
    hide Spent;
    forall i, t | Holds(v.actors, i, t) ensures (i == id && t == s) || (i != id && Holds(w.actors, i, t) && t != s) {
      if i != id {
        assert i in w.actors && v.actors[i] == w.actors[i];
        assert Holds(w.actors, i, t);
      }
    }
  }

  lemma ConsumedPublished(w: World, v: World, id: nat, s: State)
    requires PublishedAfterExchange(w) && ConsumedOne(w.rows, v.rows, s) && v.exchanges == w.exchanges
    requires v.accounts == w.accounts
    requires id in v.actors && v.actors == w.actors[id := v.actors[id]] && v.actors[id].Holding?
    ensures PublishedAfterExchange(v)
  {
    hide Spent;
    forall t | MineIn(v.rows, t, Completed) ensures MineIn(w.rows, t, Completed) && w.rows[t] == v.rows[t] {}
  }

  /** Consuming hands the verifier to the one completion that did it. */
  lemma ConsumeKeeps(w: World, id: nat, s: State, code: string, now: int)
    requires WorldValid(w) && Consume(w.rows, Devin, CallbackPKCE, s, now).result.Ok?
    requires TableValid(Consume(w.rows, Devin, CallbackPKCE, s, now).rows)
    ensures var done := Consume(w.rows, Devin, CallbackPKCE, s, now);
            WorldValid(w.(rows := done.rows, actors := w.actors[id := Holding(s, code, done.result.value.verifier)]))
  {
    hide Consume, TableValid, HeldOnce, ExchangedOnce, PublishedAfterExchange, Spent;
    ConsumeSays(w.rows, s, now);
    var done := Consume(w.rows, Devin, CallbackPKCE, s, now);
    var v := w.(rows := done.rows, actors := w.actors[id := Holding(s, code, done.result.value.verifier)]);
    assert s in w.begun && w.begun[s] == done.result.value.verifier;
    hide PendingIntact;
    SameExchanges(w, v);
    ConsumedPending(w, v, id, s);
    ConsumedHeld(w, v, id, s);
    ConsumedPublished(w, v, id, s);
  }

  lemma SpentMore(exchanges: seq<Exchange>, x: Exchange)
    ensures forall s :: Spent(exchanges + [x], s) <==> Spent(exchanges, s) || s == x.state
  {
    var more := exchanges + [x];
    forall s ensures Spent(more, s) <==> Spent(exchanges, s) || s == x.state {
      if Spent(exchanges, s) {
        var i :| 0 <= i < |exchanges| && exchanges[i].state == s;
        assert more[i].state == s;
      }
      if s == x.state {
        assert more[|exchanges|].state == s;
      }
    }
  }

  /** Exchanging uses up the verifier that was held. */
  lemma ExchangeKeeps(w: World, id: nat, actor: Actor)
    requires WorldValid(w) && id in w.actors && w.actors[id].Holding? && !actor.Holding?
    requires actor.Saving? ==> actor.state == w.actors[id].state
    ensures var held := w.actors[id];
            var x := Exchanged(held.state, held.code, held.verifier);
            WorldValid(w.(exchanges := w.exchanges + [x], actors := w.actors[id := actor]))
  {
    var held := w.actors[id];
    var x := Exchanged(held.state, held.code, held.verifier);
    var v := w.(exchanges := w.exchanges + [x], actors := w.actors[id := actor]);
    assert Holds(w.actors, id, held.state);
    SpentMore(w.exchanges, x);
    assert ExchangedOnce(v) by {
      hide PendingIntact, PublishedAfterExchange, TableValid;
      forall i | 0 <= i < |w.exchanges| ensures w.exchanges[i].state != x.state {
        assert w.exchanges[i].state == x.state ==> Spent(w.exchanges, x.state);
      }
    }
    hide Spent, TableValid, ExchangedOnce;
    forall i, t | Holds(v.actors, i, t) ensures i != id && Holds(w.actors, i, t) && t != held.state {}
  }

  lemma PublishSays(rows: Table, accounts: Accounts, s: State, fingerprint: string, freshId: string, now: int,
        fault: Fault)
    requires TableValid(rows)
    ensures var p := Publish(rows, accounts, s, fingerprint, freshId, now, fault);
            if p.result.Err? then p.rows == rows && p.accounts == accounts
            else
              && MineIn(rows, s, Consumed) && MineIn(p.rows, s, Completed)
              && p.rows[s].payload.accountId == p.result.value
              && p.rows.Keys == rows.Keys
              && (forall other :: other != s && other in rows ==> p.rows[other] == rows[other])
              && p.accounts.upserts == accounts.upserts + [p.result.value] && fingerprint in p.accounts.ids
              && p.accounts.ids[fingerprint] == p.result.value
              && p.rows == Step(rows, PublishOp(s, p.result.value, now))
  {
  }

  /** The world with one consumed session completed, and its account published. */
  ghost predicate PublishedOne(w: World, v: World, s: State) {
    && MineIn(w.rows, s, Consumed) && MineIn(v.rows, s, Completed) && v.rows.Keys == w.rows.Keys
    && (forall t :: t != s && t in w.rows ==> v.rows[t] == w.rows[t])
    && v.accounts.upserts == w.accounts.upserts + [v.rows[s].payload.accountId]
    && v.exchanges == w.exchanges && v.begun == w.begun && v.actors == w.actors
  }

  lemma PublishedPending(w: World, v: World, s: State)
    requires PendingIntact(w) && PublishedOne(w, v, s)
    ensures PendingIntact(v)
  {
    hide Spent, Holds;
    forall t | MineIn(v.rows, t, Pending) ensures t != s && MineIn(w.rows, t, Pending) && w.rows[t] == v.rows[t] {}
  }

  lemma PublishedCompleted(w: World, v: World, s: State)
    requires PublishedAfterExchange(w) && PublishedOne(w, v, s) && Spent(w.exchanges, s)
    ensures PublishedAfterExchange(v)
  {
    hide Spent;
    forall t | t != s && MineIn(v.rows, t, Completed) ensures MineIn(w.rows, t, Completed) && w.rows[t] == v.rows[t] {}
  }

  lemma SameHeld(w: World, v: World)
    requires HeldOnce(w) && v.exchanges == w.exchanges && v.begun == w.begun && v.actors == w.actors
    ensures HeldOnce(v)
  {
    hide Spent, Holds;
  }

  lemma PublishKeeps(w: World, id: nat, fingerprint: string, c: Choice)
    requires WorldValid(w) && id in w.actors && w.actors[id].Saving?
    requires var p := Publish(w.rows, w.accounts, w.actors[id].state, fingerprint, c.freshId, c.now, c.fault);
             p.result.Ok? && TableValid(p.rows)
    ensures var p := Publish(w.rows, w.accounts, w.actors[id].state, fingerprint, c.freshId, c.now, c.fault);
            WorldValid(w.(rows := p.rows, accounts := p.accounts))
  {
    hide Publish, TableValid, Spent, PendingIntact, HeldOnce, ExchangedOnce;
    var s := w.actors[id].state;
    PublishSays(w.rows, w.accounts, s, fingerprint, c.freshId, c.now, c.fault);
    var p := Publish(w.rows, w.accounts, s, fingerprint, c.freshId, c.now, c.fault);
    var v := w.(rows := p.rows, accounts := p.accounts);
    assert PublishedOne(w, v, s) && Spent(w.exchanges, s);
    hide PublishedOne, PublishedAfterExchange;
    SameExchanges(w, v);
    SameHeld(w, v);
    PublishedPending(w, v, s);
    PublishedCompleted(w, v, s);
  }

  /** A completion that finishes one of its sessions off. */
  lemma TerminateKeeps(w: World, op: Op)
    requires WorldValid(w) && IsElsewhere(op)
    ensures WorldValid(w.(rows := Step(w.rows, op)))
  {
    hide Step, PendingIntact, HeldOnce, ExchangedOnce, PublishedAfterExchange, TableValid, AllQuiet;
    StepValid(w.rows, op);
    ElsewhereQuiet(w.rows, op);
    QuietKeeps(w, Step(w.rows, op));
  }

  lemma UpdatesCommute(w: World, rows: Table, id: nat, actor: Actor)
    ensures w.(rows := rows).(actors := w.actors[id := actor])
         == World(rows, w.accounts, w.exchanges, w.begun, w.actors[id := actor])
  {
  }

  /** The steps that only read, or take a session out of play. */
  lemma PlainStepKeeps(w: World, id: nat, c: Choice)
    requires WorldValid(w) && id in w.actors
    requires !w.actors[id].Ready? && !w.actors[id].Holding? && !w.actors[id].Saving?
    ensures WorldValid(Acted(w, id, Advance(ViewOf(w, id), c)))
  {
    hide WorldValid, Get, Expire, Fail, Cancel, Publish, Consume, Checked;
    var v := Advance(ViewOf(w, id), c);
    var op := match w.actors[id]
      case Overdue(s, _, _) => ExpireOp(Devin, CallbackPKCE, s, EXPIRED_MESSAGE, c.now)
      case DeniedOverdue(s) => ExpireOp(Devin, CallbackPKCE, s, EXPIRED_MESSAGE, c.now)
      case Failing(s) => FinalizeOp(s, FAILED_MESSAGE, c)
      case Compensating(s) => FinalizeOp(s, COMPENSATION_MESSAGE, c)
      case Corrupt(s) => CancelOp(Devin, CallbackPKCE, s, CORRUPT_MESSAGE, c.now)
      case _ => CleanupOp({}, 0);
    assert v.rows == Step(w.rows, op) by {
      hide Expire, Fail, Cancel;
      NoVictims(w.rows);
    }
    assert !v.actor.Holding? && !v.actor.Saving? by { CheckedKinds(); }
    TerminateKeeps(w, op);
    ActorKeeps(w.(rows := v.rows), id, v.actor);
    UpdatesCommute(w, v.rows, id, v.actor);
  }

  /** What failing a session does to the table, as an operation on it. */
  function FinalizeOp(s: State, sanitized: string, c: Choice): Op {
    if c.refused then CleanupOp({}, 0) else FailOp(Devin, CallbackPKCE, s, sanitized, c.now)
  }

  lemma CheckedKinds()
    ensures forall row, s, sessionId, code :: var a := Checked(row, s, sessionId, code); a.Finished? || a.Ready?
  {
  }

  lemma NoVictims(rows: Table)
    ensures Step(rows, CleanupOp({}, 0)) == rows
  {
    assert rows - ({} * AllRemovable(rows, 0)) == rows;
  }

  lemma ReadyKeeps(w: World, id: nat, c: Choice)
    requires WorldValid(w) && id in w.actors && w.actors[id].Ready?
    ensures WorldValid(Acted(w, id, Advance(ViewOf(w, id), c)))
  {
    hide PendingIntact, HeldOnce, ExchangedOnce, PublishedAfterExchange, TableValid, Consume;
    var s := w.actors[id].state;
    var done := Consume(w.rows, Devin, CallbackPKCE, s, c.now);
    if done.result.Ok? {
      StepValid(w.rows, ConsumeOp(Devin, CallbackPKCE, s, c.now));
      ConsumeKeeps(w, id, s, w.actors[id].code, c.now);
    } else {
      ConsumeSays(w.rows, s, c.now);
      ActorKeeps(w, id, Denied(s));
    }
  }

  lemma HoldingKeeps(w: World, id: nat, c: Choice)
    requires WorldValid(w) && id in w.actors && w.actors[id].Holding?
    ensures WorldValid(Acted(w, id, Advance(ViewOf(w, id), c)))
  {
    hide WorldValid;
    ExchangeKeeps(w, id, Advance(ViewOf(w, id), c).actor);
  }

  lemma SavingKeeps(w: World, id: nat, c: Choice)
    requires WorldValid(w) && id in w.actors && w.actors[id].Saving?
    ensures WorldValid(Acted(w, id, Advance(ViewOf(w, id), c)))
  {
    hide PendingIntact, HeldOnce, ExchangedOnce, PublishedAfterExchange, TableValid, Publish, Step;
    var a := w.actors[id];
    var p := Publish(w.rows, w.accounts, a.state, a.fingerprint, c.freshId, c.now, c.fault);
    PublishSays(w.rows, w.accounts, a.state, a.fingerprint, c.freshId, c.now, c.fault);
    if p.result.Ok? {
      StepValid(w.rows, PublishOp(a.state, p.result.value, c.now));
      PublishKeeps(w, id, a.fingerprint, c);
      ActorKeeps(w.(rows := p.rows, accounts := p.accounts), id, Finished(Published(p.result.value)));
    } else {
      ActorKeeps(w, id, Compensating(a.state));
    }
  }

  /** A new pending session, with its verifier written down. */
  ghost predicate BegunOne(w: World, v: World, s: State) {
    && s !in w.begun && v.begun.Keys == w.begun.Keys + {s} && (forall t :: t in w.begun ==> v.begun[t] == w.begun[t])
    && MineIn(v.rows, s, Pending) && v.rows[s].payload.pending.Some?
    && v.rows[s].payload.pending.value.verifier == v.begun[s]
    && v.rows.Keys == w.rows.Keys + {s} && (forall t :: t in w.rows && t != s ==> v.rows[t] == w.rows[t])
    && v.exchanges == w.exchanges && v.actors == w.actors && v.accounts == w.accounts
  }

  lemma BegunPending(w: World, v: World, s: State)
    requires PendingIntact(w) && BegunOne(w, v, s) && !Spent(w.exchanges, s) && forall id :: !Holds(w.actors, id, s)
    ensures PendingIntact(v)
  {
    hide Spent, Holds;
    forall t | t != s && MineIn(v.rows, t, Pending) ensures MineIn(w.rows, t, Pending) && w.rows[t] == v.rows[t] {}
  }

  lemma BegunHeld(w: World, v: World, s: State)
    requires HeldOnce(w) && ExchangedOnce(w) && BegunOne(w, v, s)
    ensures HeldOnce(v) && ExchangedOnce(v)
  {
    hide Spent, MineIn;
  }

  lemma BegunCompleted(w: World, v: World, s: State)
    requires PublishedAfterExchange(w) && BegunOne(w, v, s)
    ensures PublishedAfterExchange(v)
  {
    hide Spent;
    forall t | MineIn(v.rows, t, Completed) ensures t != s && MineIn(w.rows, t, Completed) && w.rows[t] == v.rows[t] {}
  }

  lemma BegunKeeps(w: World, v: World, s: State)
    requires WorldValid(w) && BegunOne(w, v, s) && TableValid(v.rows)
    ensures WorldValid(v)
  {
    Unused(w, s);
    BegunPending(w, v, s);
    BegunHeld(w, v, s);
    BegunCompleted(w, v, s);
    hide TableValid, Spent, PendingIntact, HeldOnce, ExchangedOnce, PublishedAfterExchange, BegunOne;
  }

  lemma CreateBegins(w: World, m: Move)
    requires m.Begin? && Possible(w, m)
    ensures var created := Create(w.rows, SessionToBegin(m.state, m.sessionId, m.verifier, m.redirectUri, m.expiresAt),
                                  m.sessionId, m.now);
            var v := w.(rows := created.rows, begun := w.begun[m.state := m.verifier]);
            created.result.Ok? ==> BegunOne(w, v, m.state)
  {
  }

  lemma BeginKeeps(w: World, m: Move)
    requires WorldValid(w) && m.Begin? && Possible(w, m)
    ensures WorldValid(Next(w, m))
  {
    hide TableValid, PendingIntact, HeldOnce, ExchangedOnce, PublishedAfterExchange, Create, BegunOne;
    var new' := SessionToBegin(m.state, m.sessionId, m.verifier, m.redirectUri, m.expiresAt);
    CreateBegins(w, m);
    if Create(w.rows, new', m.sessionId, m.now).result.Ok? {
      StepValid(w.rows, CreateOp(new', m.sessionId, m.now));
      BegunKeeps(w, Next(w, m), m.state);
    }
  }

  /** A state that has not been begun has left no trace. */
  lemma Unused(w: World, s: State)
    requires WorldValid(w) && s !in w.begun
    ensures !Spent(w.exchanges, s) && forall id :: !Holds(w.actors, id, s)
  {
    hide TableValid, PendingIntact, PublishedAfterExchange;
  }

  lemma NextValid(w: World, m: Move)
    requires WorldValid(w)
    ensures WorldValid(Next(w, m))
  {
    hide WorldValid, Advance, Step, Create;
    if Possible(w, m) {
      match m {
        case Begin(_, _, _, _, _, _) => BeginKeeps(w, m);
        case Call(id, s, sessionId, code) => ActorKeeps(w, id, Asked(s, sessionId, code));
        case Act(id, c) =>
          match w.actors[id] {
            case Ready(_, _) => ReadyKeeps(w, id, c);
            case Holding(_, _, _) => HoldingKeeps(w, id, c);
            case Saving(_, _) => SavingKeeps(w, id, c);
            case _ => PlainStepKeeps(w, id, c);
          }
        case Elsewhere(op) => TerminateKeeps(w, op);
        case Restart => RestartKeeps(w);
      }
    }
  }

  lemma RestartKeeps(w: World)
    requires WorldValid(w)
    ensures WorldValid(w.(actors := map[]))
  {
    hide TableValid, Spent;
    SameExchanges(w, w.(actors := map[]));
    hide ExchangedOnce;
  }

  lemma {:induction false} AlwaysValid(moves: seq<Move>)
    ensures WorldValid(After(moves))
  {
    hide Next, WorldValid;
    if moves == [] {
      StartValid();
    } else {
      AlwaysValid(moves[..|moves| - 1]);
      NextValid(After(moves[..|moves| - 1]), moves[|moves| - 1]);
    }
  }

  lemma StartValid()
    ensures WorldValid(START)
  {
  }

  // ----- Main results -----

  /**
   However completions, cancellations, expiry, resumption, cleanup and restarts interleave, no session is exchanged
   twice, and what is exchanged is the verifier the session began with.
   */
  lemma ExchangedAtMostOnce(moves: seq<Move>)
    ensures var w := After(moves);
            && (forall i, j :: 0 <= i < |w.exchanges| && 0 <= j < |w.exchanges| ==>
                 w.exchanges[i].state == w.exchanges[j].state ==> i == j)
            && (forall i :: 0 <= i < |w.exchanges| ==> w.exchanges[i].state in w.begun)
            && (forall i :: 0 <= i < |w.exchanges| ==> w.exchanges[i].verifier == w.begun[w.exchanges[i].state])
  {
    hide After, TableValid, PendingIntact, HeldOnce, PublishedAfterExchange;
    AlwaysValid(moves);
  }

  /** A Devin session goes from consumed to completed with an account id. */
  predicate CompletesWith(before: Table, after: Table, s: State, accountId: string) {
    MineIn(before, s, Consumed) && MineIn(after, s, Completed) && after[s].payload.accountId == accountId
  }

  ghost predicate NoneCompletes(before: Table, after: Table) {
    forall s, accountId :: !CompletesWith(before, after, s, accountId)
  }

  ghost predicate OneCompletes(before: Table, after: Table, s: State, accountId: string) {
    CompletesWith(before, after, s, accountId) && forall t, id ::
         CompletesWith(before, after, t, id) ==> t == s && id == accountId
  }

  /**
   Either no account is written and no session completes, or one account is upserted and one session completes with its
   id.
   */
  ghost predicate PublishedTogether(w: World, v: World) {
    || (v.accounts == w.accounts && NoneCompletes(w.rows, v.rows))
    || exists s, accountId ::
         OneCompletes(w.rows, v.rows, s, accountId) && v.accounts.upserts == w.accounts.upserts + [accountId]
           && accountId in v.accounts.ids.Values
  }

  lemma QuietCompletesNone(before: Table, after: Table)
    requires AllQuiet(before, after)
    ensures NoneCompletes(before, after)
  {
    hide Quiet;
    forall s, accountId ensures !CompletesWith(before, after, s, accountId) {
      if CompletesWith(before, after, s, accountId) {
        QuietSays(before, after, s);
      }
    }
  }

  lemma ConsumeCompletesNone(rows: Table, s: State, now: int)
    requires TableValid(rows)
    ensures NoneCompletes(rows, Consume(rows, Devin, CallbackPKCE, s, now).rows)
  {
    hide Consume, TableValid;
    ConsumeSays(rows, s, now);
  }

  lemma CreateCompletesNone(rows: Table, v: NewSession, generatedId: string, now: int)
    ensures NoneCompletes(rows, Create(rows, v, generatedId, now).rows)
  {
  }

  lemma PublishTogether(w: World, id: nat, c: Choice)
    requires TableValid(w.rows) && id in w.actors && w.actors[id].Saving?
    ensures PublishedTogether(w, Acted(w, id, Advance(ViewOf(w, id), c)))
  {
    hide Publish, TableValid, Step;
    var a := w.actors[id];
    PublishSays(w.rows, w.accounts, a.state, a.fingerprint, c.freshId, c.now, c.fault);
    var p := Publish(w.rows, w.accounts, a.state, a.fingerprint, c.freshId, c.now, c.fault);
    if p.result.Ok? {
      assert p.accounts.ids[a.fingerprint] in p.accounts.ids.Values;
      assert OneCompletes(w.rows, p.rows, a.state, p.result.value);
    }
  }

  lemma PlainStepQuiet(w: World, id: nat, c: Choice)
    requires id in w.actors && !w.actors[id].Ready? && !w.actors[id].Saving?
    ensures AllQuiet(w.rows, Advance(ViewOf(w, id), c).rows) && Advance(ViewOf(w, id), c).accounts == w.accounts
  {
    hide Get, Publish, Consume, Checked, Terminate, AllQuiet;
    var a := w.actors[id];
    NothingQuiet(w.rows);
    if !a.Finished? {
      TerminateQuiet(w.rows, Devin, CallbackPKCE, a.state, Expired, EXPIRED_MESSAGE, c.now, {Pending, Authorized});
      TerminateQuiet(w.rows, Devin, CallbackPKCE, a.state, Failed, FAILED_MESSAGE, c.now, FailFrom(CallbackPKCE));
      TerminateQuiet(w.rows, Devin, CallbackPKCE, a.state, Failed, COMPENSATION_MESSAGE, c.now, FailFrom(CallbackPKCE));
      TerminateQuiet(w.rows, Devin, CallbackPKCE, a.state, Cancelled, CORRUPT_MESSAGE, c.now, {Pending, Authorized});
    }
  }

  lemma NothingQuiet(rows: Table)
    ensures AllQuiet(rows, rows)
  {
  }

  lemma ActTogether(w: World, id: nat, c: Choice)
    requires TableValid(w.rows) && id in w.actors
    ensures PublishedTogether(w, Acted(w, id, Advance(ViewOf(w, id), c)))
  {
    hide TableValid, Consume, NoneCompletes, AllQuiet, Publish;
    match w.actors[id] {
      case Ready(s, _) => ConsumeCompletesNone(w.rows, s, c.now);
      case Saving(_, _) => PublishTogether(w, id, c);
      case _ =>
        PlainStepQuiet(w, id, c);
        QuietCompletesNone(w.rows, Advance(ViewOf(w, id), c).rows);
        hide Advance;
    }
  }

  /**
   In every reachable world, whatever the next move: an account is upserted exactly when a session moves from
   consumed to completed, and the session then carries that account's id.
   */
  lemma PublishedExactlyWithSession(moves: seq<Move>, m: Move)
    ensures PublishedTogether(After(moves), Next(After(moves), m))
  {
    hide After, TableValid, PendingIntact, HeldOnce, ExchangedOnce, PublishedAfterExchange, Advance, Step, Create,
         NoneCompletes, AllQuiet;
    AlwaysValid(moves);
    var w := After(moves);
    NothingQuiet(w.rows);
    QuietCompletesNone(w.rows, w.rows);
    if Possible(w, m) {
      match m {
        case Begin(s, sessionId, verifier, redirectUri, expiresAt, now) =>
          CreateCompletesNone(w.rows, SessionToBegin(s, sessionId, verifier, redirectUri, expiresAt), sessionId, now);
        case Call(_, _, _, _) =>
        case Act(id, c) => ActTogether(w, id, c);
        case Elsewhere(op) =>
          ElsewhereQuiet(w.rows, op);
          QuietCompletesNone(w.rows, Step(w.rows, op));
        case Restart =>
      }
    }
  }

  /** Every completed session was exchanged, once, and carries the id of an account that was published. */
  lemma CompletedAfterExchange(moves: seq<Move>, s: State)
    requires MineIn(After(moves).rows, s, Completed)
    ensures Spent(After(moves).exchanges, s) && After(moves).rows[s].payload.accountId in After(moves).accounts.upserts
  {
    hide After, TableValid, PendingIntact, HeldOnce, ExchangedOnce;
    AlwaysValid(moves);
  }
}
