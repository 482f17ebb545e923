/**
 What a completion that nothing interrupts comes to, told on the row it finds:
 when it exchanges, when it publishes, and what it leaves alone otherwise.
 */
module DevinLifecycleOutcomes {
  import opened Basics
  import opened Provider
  import opened OAuthSessionSteps
  import opened DevinLifecycleSteps
  import opened DevinLifecycle

  /** There is a Devin session under the state. */
  predicate Known(v: View, s: State) {
    s != "" && s in v.rows && v.rows[s].kind == Devin && v.rows[s].flow == CallbackPKCE
  }

  /** It still waits, at a moment, with its verifier and its address. */
  predicate Waits(row: Row, now: int) {
    && row.status == Pending && now < row.expiresAt
    && row.payload.pending.Some? && row.payload.pending.value.verifier != ""
    && row.payload.pending.value.redirectUri != ""
  }

  predicate IsOverdue(row: Row, now: int) {
    row.status == Pending && row.expiresAt <= now
  }

  /** At most the session changes, and then to this status. */
  ghost predicate OnlyTurns(before: Table, after: Table, s: State, changes: bool, to: Status) {
    if changes then s in after && after == before[s := after[s]] && after[s].status == to else after == before
  }

  lemma ExpireSays(rows: Table, s: State, now: int)
    requires s != "" && Found(rows, Devin, CallbackPKCE, s) && rows[s].status == Pending
    ensures var after := Expire(rows, Devin, CallbackPKCE, s, EXPIRED_MESSAGE, now).rows;
            && Found(after, Devin, CallbackPKCE, s) && after == rows[s := after[s]]
            && after[s].status == Expired && after[s].sessionId == rows[s].sessionId
  {
  }

  lemma ConsumeExactly(rows: Table, s: State, now: int)
    requires s != "" && Found(rows, Devin, CallbackPKCE, s)
    ensures var done := Consume(rows, Devin, CallbackPKCE, s, now);
            && (done.result.Ok? <==> Waits(rows[s], now))
            && (done.result.Ok? ==> done.result.value == rows[s].payload.pending.value)
            && (done.result.Ok? ==>
                 s in done.rows && done.rows == rows[s := done.rows[s]] && done.rows[s].status == Consumed
                 && done.rows[s].kind == Devin && done.rows[s].flow == CallbackPKCE)
            && (done.result.Err? ==> done.rows == rows)
  {
  }

  lemma PublishExactly(rows: Table, accounts: Accounts, s: State, fingerprint: string, freshId: string, now: int,
        fault: Fault)
    requires s != "" && Found(rows, Devin, CallbackPKCE, s) && rows[s].status == Consumed
    ensures var p := Publish(rows, accounts, s, fingerprint, freshId, now, fault);
            var id := if fingerprint in accounts.ids then accounts.ids[fingerprint] else freshId;
            && (p.result.Ok? <==> fault == NoFault && id != "")
            && (p.result.Ok? ==> p.result.value == id && s in p.rows && p.rows == rows[s := p.rows[s]]
                                 && p.rows[s].status == Completed && p.rows[s].payload.accountId == id
                                 && p.accounts == Accounts(accounts.ids[fingerprint := id], accounts.upserts + [id]))
            && (p.result.Err? ==> p.accounts == accounts && p.rows == rows)
  {
  }

  lemma FinalizeSays(rows: Table, s: State, sanitized: string, now: int, refused: bool)
    requires s != "" && Found(rows, Devin, CallbackPKCE, s) && rows[s].status == Consumed
    ensures var after := Finalize(rows, s, sanitized, now, refused);
            && s in after && after == rows[s := after[s]] && after[s].status == if refused then Consumed else Failed
  {
  }

  /** What a completion whose checks have passed comes to. */
  ghost predicate ReadyComesTo(v: View, s: State, code: string, c: Course, n: View) {
    Known(v, s) && n.actor.Finished? &&
    var row := v.rows[s];
    if !Waits(row, c.consuming) then
      var expires := IsOverdue(row, c.denied);
      && n.exchanges == v.exchanges && n.accounts == v.accounts
      && OnlyTurns(v.rows, n.rows, s, row.status == Pending, if expires then Expired else Cancelled)
      && n.actor == Finished(Refused(if expires || row.status == Expired then "expired" else "already used"))
    else
      var id := if c.answer.Rejected? then ""
                else if c.answer.fingerprint in v.accounts.ids then v.accounts.ids[c.answer.fingerprint] else c.freshId;
      && n.exchanges == v.exchanges + [Exchanged(s, code, row.payload.pending.value.verifier)]
      && s in n.rows && n.rows == v.rows[s := n.rows[s]]
      && if c.answer.Credentials? && c.fault == NoFault && id != "" then
           && n.actor == Finished(Published(id)) && n.rows[s].status == Completed
           && n.rows[s].payload.accountId == id
           && n.accounts == Accounts(v.accounts.ids[c.answer.fingerprint := id], v.accounts.upserts + [id])
         else
           && n.actor == Finished(Refused(if c.answer.Rejected? then "exchange failed" else "not saved"))
           && n.accounts == v.accounts
           && n.rows[s].status == if c.refused then Consumed else OAuthSessionSteps.Failed
  }

  lemma CancelSays(rows: Table, s: State, now: int)
    requires s != "" && Found(rows, Devin, CallbackPKCE, s) && rows[s].status == Pending
    ensures var after := Cancel(rows, Devin, CallbackPKCE, s, CORRUPT_MESSAGE, now).rows;
            s in after && after == rows[s := after[s]] && after[s].status == Cancelled
  {
  }

  lemma DeniedComesTo(v: View, c: Course, s: State)
    requires v.actor == Denied(s) && Known(v, s)
    ensures var n := Alone(v, c);
            var row, expires := v.rows[s], IsOverdue(v.rows[s], c.denied);
            && n.exchanges == v.exchanges && n.accounts == v.accounts
            && OnlyTurns(v.rows, n.rows, s, row.status == Pending, if expires then Expired else Cancelled)
            && n.actor == Finished(Refused(if expires || row.status == Expired then "expired" else "already used"))
  {
    hide Alone, Expire, Cancel;
    DeniedAlone(v, c, s);
    if v.rows[s].status == Pending {
      ExpireSays(v.rows, s, c.denied);
      CancelSays(v.rows, s, c.suspect);
    }
  }

  lemma HoldingComesTo(v: View, c: Course, s: State)
    requires v.actor.Holding? && v.actor.state == s && Known(v, s) && v.rows[s].status == Consumed
    ensures var n := Alone(v, c);
            var id := if c.answer.Rejected? then ""
                      else if c.answer.fingerprint in v.accounts.ids then v.accounts.ids[c.answer.fingerprint]
                      else c.freshId;
            && n.actor.Finished? && n.exchanges == v.exchanges + [Exchanged(s, v.actor.code, v.actor.verifier)]
            && s in n.rows && n.rows == v.rows[s := n.rows[s]]
            && if c.answer.Credentials? && c.fault == NoFault && id != "" then
                 && n.actor == Finished(Published(id)) && n.rows[s].status == Completed
                 && n.rows[s].payload.accountId == id
                 && n.accounts == Accounts(v.accounts.ids[c.answer.fingerprint := id], v.accounts.upserts + [id])
               else
                 && n.actor == Finished(Refused(if c.answer.Rejected? then "exchange failed" else "not saved"))
                 && n.accounts == v.accounts
                 && n.rows[s].status == if c.refused then Consumed else OAuthSessionSteps.Failed
  {
    hide Consume, Finalize, Publish, Get, Expire, Cancel;
    var v2 := OneStep(v, c);
    assert Alone(v, c) == Alone(v2, c);
    if v2.actor.Failing? {
      LastStep(v2, c);
      FinalizeSays(v2.rows, s, FAILED_MESSAGE, c.consuming, c.refused);
    } else {
      SavingAlone(v2, c);
      PublishExactly(v2.rows, v2.accounts, s, v2.actor.fingerprint, c.freshId, c.consuming, c.fault);
      FinalizeSays(v2.rows, s, COMPENSATION_MESSAGE, c.consuming, c.refused);
    }
  }

  lemma ReadyAlone(v: View, c: Course)
    requires v.actor.Ready? && Known(v, v.actor.state)
    ensures ReadyComesTo(v, v.actor.state, v.actor.code, c, Alone(v, c))
  {
    hide Alone, Consume, Finalize, Publish, Get, Expire, Cancel;
    var s := v.actor.state;
    ConsumeExactly(v.rows, s, c.consuming);
    var v1 := OneStep(v, c);
    AloneNext(v, c);
    if v1.actor.Denied? { DeniedComesTo(v1, c, s); } else { HoldingComesTo(v1, c, s); }
  }

  lemma AloneNext(v: View, c: Course)
    requires !v.actor.Finished?
    ensures Alone(v, c) == Alone(OneStep(v, c), c)
  {
    hide OneStep;
  }

  // ----- Main result -----

  /** Why a completion goes no further than its checks; None when it may. */
  function Turned(v: View, s: State, sessionId: string, code: string, now: int): Option<string> {
    if !Known(v, s) then Some("not found")
    else if sessionId != "" && sessionId != v.rows[s].sessionId then Some("not found")
    else if v.rows[s].status == Expired || IsOverdue(v.rows[s], now) then Some("expired")
    else if Blank(code) then Some("code required")
    else None
  }

  /**
   A completion with another session id, for an elapsed session or without a code touches nothing but an overdue
   session, which expires. Any other one exchanges exactly when the session still waits, with its verifier, and then
   publishes exactly when the endpoint grants an account and the database stores it.
   */
  lemma CompletionComesTo(v: View, s: State, sessionId: string, code: string, c: Course)
    requires v.actor == Asked(s, sessionId, code)
    ensures var n := Alone(v, c);
            match Turned(v, s, sessionId, code, c.asked)
            case Some(reason) =>
              && n.actor == Finished(Refused(reason)) && n.exchanges == v.exchanges && n.accounts == v.accounts
              && OnlyTurns(v.rows, n.rows, s, Known(v, s) && IsOverdue(v.rows[s], c.asked), Expired)
            case None => ReadyComesTo(v, s, code, c, n)
  {
    hide Alone, ReadyComesTo, Expire, Blank;
    AskedAlone(v, c);
    if Known(v, s) && v.rows[s].status == Pending { ExpireSays(v.rows, s, c.asked); }
    if Turned(v, s, sessionId, code, c.asked).None? {
      ReadyAlone(v.(actor := Ready(s, code)), c);
      SameReady(v, v.(actor := Ready(s, code)), s, code, c, Alone(v, c));
    } else {
      EndsThere(c);
    }
  }

  /**
   A restart expires the Devin sessions whose time has come and fails those that are consumed; every other row stays,
   and those that can go on are the ones still waiting.
   */
  lemma ResumesExactly(rows: Table, now: int, s: State)
    requires s in rows
    ensures var before, devin := rows[s], rows[s].kind == Devin && rows[s].flow == CallbackPKCE;
            s in Resumed(rows, now) &&
            var after := Resumed(rows, now)[s];
            && (CanGoOn(before, now) <==> devin && before.status == Pending && now < before.expiresAt)
            && if devin && before.status == Pending && before.expiresAt <= now then
                 after == before.(status := Expired, updatedAt := now, sanitized := "Devin authorization expired.",
                                  payload := Payload("", NO_DEVICE, None, None, ""))
               else if devin && before.status == Consumed then
                 after == before.(status := OAuthSessionSteps.Failed, updatedAt := now,
                                  sanitized := "Devin authorization was interrupted.")
               else after == before
  {
  }

  lemma SameReady(v: View, w: View, s: State, code: string, c: Course, n: View)
    requires w == v.(actor := w.actor) && ReadyComesTo(w, s, code, c, n)
    ensures ReadyComesTo(v, s, code, c, n)
  {
  }

  lemma EndsThere(c: Course)
    ensures forall w: View :: w.actor.Finished? ==> Alone(w, c) == w
  {
  }
}

/** An identity keeps its account id over every run. */
module DevinAccountIds {
  import opened OAuthSessionSteps
  import opened DevinLifecycleSteps

  /** The i-th move publishes an account for a fingerprint. */
  ghost predicate PublishesAt(moves: seq<Move>, i: nat, fingerprint: string, account: string) {
    && i < |moves| && moves[i].Act? && moves[i].id in After(moves[..i]).actors
    && After(moves[..i]).actors[moves[i].id].Saving?
    && After(moves[..i]).actors[moves[i].id].fingerprint == fingerprint
    && moves[i].id in After(moves[..i + 1]).actors
    && After(moves[..i + 1]).actors[moves[i].id] == Finished(Published(account))
  }

  predicate HasId(w: World, fingerprint: string, account: string) {
    fingerprint in w.accounts.ids && w.accounts.ids[fingerprint] == account
  }

  lemma NextKeepsId(w: World, m: Move, fingerprint: string, account: string)
    requires HasId(w, fingerprint, account)
    ensures HasId(Next(w, m), fingerprint, account)
  {
    hide Expire, Fail, Finalize, Cancel, Consume, Get, Checked, Create, CompleteConsumedDevin;
    if m.Act? && Possible(w, m) && w.actors[m.id].Saving? {
      PublishKeepsId(w.rows, w.accounts, w.actors[m.id].state, w.actors[m.id].fingerprint, m.choice, fingerprint);
    }
  }

  lemma PublishKeepsId(rows: Table, accounts: Accounts, s: State, published: string, c: Choice, fingerprint: string)
    requires fingerprint in accounts.ids
    ensures var p := Publish(rows, accounts, s, published, c.freshId, c.now, c.fault);
            fingerprint in p.accounts.ids && p.accounts.ids[fingerprint] == accounts.ids[fingerprint]
  {
    hide CompleteConsumedDevin;
  }

  lemma {:induction false} IdStays(moves: seq<Move>, i: nat, fingerprint: string, account: string)
    requires i <= |moves| && HasId(After(moves[..i]), fingerprint, account)
    ensures HasId(After(moves), fingerprint, account)
    decreases |moves|
  {
    hide HasId, Next;
    if i == |moves| {
      assert moves[..i] == moves;
    } else {
      var most := moves[..|moves| - 1];
      assert most[..i] == moves[..i];
      IdStays(most, i, fingerprint, account);
      NextKeepsId(After(most), moves[|moves| - 1], fingerprint, account);
    }
  }

  /** What is published is the id the identity has from then on, and the one it had if it had one. */
  lemma PublishedIsId(w: World, m: Move, fingerprint: string, account: string)
    requires m.Act? && m.id in w.actors && w.actors[m.id].Saving? && w.actors[m.id].fingerprint == fingerprint
    requires m.id in Next(w, m).actors && Next(w, m).actors[m.id] == Finished(Published(account))
    ensures HasId(Next(w, m), fingerprint, account)
    ensures fingerprint in w.accounts.ids ==> HasId(w, fingerprint, account)
  {
    hide CompleteConsumedDevin;
  }

  /** Whenever one identity is published twice in a run, both carry the same account id. */
  lemma OneIdentityOneAccount(moves: seq<Move>, i: nat, j: nat, fingerprint: string, a: string, b: string)
    requires i < j && PublishesAt(moves, i, fingerprint, a) && PublishesAt(moves, j, fingerprint, b)
    ensures a == b
  {
    hide Next, HasId;
    var first, until := moves[..i + 1], moves[..j];
    assert first[..i] == moves[..i] && until[..i + 1] == first;
    assert moves[..j + 1][..j] == until;
    PublishedIsId(After(moves[..i]), moves[i], fingerprint, a);
    PublishedIsId(After(until), moves[j], fingerprint, b);
    IdStays(until, i + 1, fingerprint, a);
    assert a == b by { TwoIds(After(until), fingerprint, a, b); }
  }

  lemma TwoIds(w: World, fingerprint: string, a: string, b: string)
    requires HasId(w, fingerprint, a) && (fingerprint in w.accounts.ids ==> HasId(w, fingerprint, b))
    ensures a == b
  {
  }
}
