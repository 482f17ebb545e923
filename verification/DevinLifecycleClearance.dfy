/**
 Who may exchange: only a completion called with a code and with the id of the
 session it completes, or with no session id at all.
 */
module DevinLifecycleClearance {
  import opened Basics
  import opened Provider
  import opened OAuthSessionSteps
  import opened OAuthInvariants
  import opened DevinLifecycleSteps
  import opened DevinLifecycleSafety

  /** The i-th move calls for the completion of a state with a code. */
  predicate AsksAt(moves: seq<Move>, i: nat, s: State, sessionId: string, code: string) {
    i < |moves| && moves[i].Call? && moves[i].state == s && moves[i].sessionId == sessionId && moves[i].code == code
  }

  /** The j-th move begins the session of a state. */
  ghost predicate BeginsAt(moves: seq<Move>, j: nat, s: State, sessionId: string) {
    && j < |moves| && moves[j].Begin? && moves[j].state == s && moves[j].sessionId == sessionId
    && s !in After(moves[..j]).begun && s in After(moves[..j + 1]).begun
  }

  ghost predicate Requested(moves: seq<Move>, s: State, sessionId: string, code: string) {
    exists i: nat :: AsksAt(moves, i, s, sessionId, code)
  }

  ghost predicate Begun(moves: seq<Move>, s: State, sessionId: string) {
    exists j: nat :: BeginsAt(moves, j, s, sessionId)
  }

  /** Some call has asked for the state with this code and, if with a session id, with that of the session. */
  ghost predicate Cleared(moves: seq<Move>, s: State, code: string) {
    !Blank(code)
    && exists sessionId, wanted :: Begun(moves, s, sessionId) && Requested(moves, s, wanted, code)
                                  && (wanted == "" || wanted == sessionId)
  }

  ghost predicate ActorCleared(moves: seq<Move>, a: Actor) {
    match a
    case Asked(s, sessionId, code) => Requested(moves, s, sessionId, code)
    case Overdue(s, sessionId, code) => Requested(moves, s, sessionId, code)
    case Reading(s, sessionId, code) => Requested(moves, s, sessionId, code)
    case Ready(s, code) => Cleared(moves, s, code)
    case Holding(s, code, _) => Cleared(moves, s, code)
    case _ => true
  }

  ghost predicate RowsBegun(moves: seq<Move>, rows: Table) {
    forall s :: Mine(rows, s) ==> Begun(moves, s, rows[s].sessionId)
  }

  ghost predicate AllCleared(moves: seq<Move>, w: World) {
    && RowsBegun(moves, w.rows)
    && (forall id :: id in w.actors ==> ActorCleared(moves, w.actors[id]))
    && (forall i :: 0 <= i < |w.exchanges| ==> Cleared(moves, w.exchanges[i].state, w.exchanges[i].code))
  }

  // ----- Longer runs -----

  lemma BegunStays(moves: seq<Move>, m: Move, s: State, sessionId: string)
    requires Begun(moves, s, sessionId)
    ensures Begun(moves + [m], s, sessionId)
  {
    hide After;
    var j: nat :| BeginsAt(moves, j, s, sessionId);
    assert (moves + [m])[..j] == moves[..j] && (moves + [m])[..j + 1] == moves[..j + 1];
    assert BeginsAt(moves + [m], j, s, sessionId);
  }

  lemma RequestStays(moves: seq<Move>, m: Move, s: State, sessionId: string, code: string)
    requires Requested(moves, s, sessionId, code)
    ensures Requested(moves + [m], s, sessionId, code)
  {
    var i: nat :| AsksAt(moves, i, s, sessionId, code);
    assert AsksAt(moves + [m], i, s, sessionId, code);
  }

  lemma ClearedStays(moves: seq<Move>, m: Move, s: State, code: string)
    requires Cleared(moves, s, code)
    ensures Cleared(moves + [m], s, code)
  {
    hide Begun, Requested, Blank;
    var sessionId, wanted :| Begun(moves, s, sessionId) && Requested(moves, s, wanted, code)
                             && (wanted == "" || wanted == sessionId);
    BegunStays(moves, m, s, sessionId);
    RequestStays(moves, m, s, wanted, code);
  }

  lemma ActorStays(moves: seq<Move>, m: Move, a: Actor)
    requires ActorCleared(moves, a)
    ensures ActorCleared(moves + [m], a)
  {
    hide Requested, Cleared;
    match a {
      case Asked(s, sessionId, code) => RequestStays(moves, m, s, sessionId, code);
      case Overdue(s, sessionId, code) => RequestStays(moves, m, s, sessionId, code);
      case Reading(s, sessionId, code) => RequestStays(moves, m, s, sessionId, code);
      case Ready(s, code) => ClearedStays(moves, m, s, code);
      case Holding(s, code, _) => ClearedStays(moves, m, s, code);
      case _ =>
    }
  }

  lemma AllStay(moves: seq<Move>, m: Move, w: World)
    requires AllCleared(moves, w)
    ensures AllCleared(moves + [m], w)
  {
    hide Begun, Cleared, ActorCleared;
    forall s | Mine(w.rows, s) ensures Begun(moves + [m], s, w.rows[s].sessionId) {
      BegunStays(moves, m, s, w.rows[s].sessionId);
    }
    forall id | id in w.actors ensures ActorCleared(moves + [m], w.actors[id]) {
      ActorStays(moves, m, w.actors[id]);
    }
    forall i | 0 <= i < |w.exchanges| ensures Cleared(moves + [m], w.exchanges[i].state, w.exchanges[i].code) {
      ClearedStays(moves, m, w.exchanges[i].state, w.exchanges[i].code);
    }
  }

  // ----- One move -----

  /** Devin sessions keep their ids, and none comes in. */
  ghost predicate IdsKept(before: Table, after: Table) {
    forall s :: Mine(after, s) ==> Mine(before, s) && after[s].sessionId == before[s].sessionId
  }

  lemma StepKeepsIds(rows: Table, op: Op)
    requires TableValid(rows) && (!op.CreateOp? || IsElsewhere(op))
    ensures IdsKept(rows, Step(rows, op))
  {
    hide Moved, RowOf;
    if op.CreateOp? {
      CreateKeepsIds(rows, op.v, op.generatedId, op.now);
    } else {
      StepMoves(rows, op);
      OnlyCreateAdds(rows, op);
      hide Step;
      forall s | Mine(Step(rows, op), s)
        ensures Mine(rows, s) && Step(rows, op)[s].sessionId == rows[s].sessionId
      {
        MovedKeepsId(rows[s], Step(rows, op)[s]);
        RowsOf(rows, Step(rows, op), s);
      }
    }
  }

  lemma RowsOf(rows: Table, after: Table, s: State)
    requires s in rows && s in after
    ensures RowOf(rows, s) == Some(rows[s]) && RowOf(after, s) == Some(after[s])
  {
  }

  lemma MovedKeepsId(before: Row, after: Row)
    ensures Moved(Some(before), Some(after)) ==>
              after.kind == before.kind && after.flow == before.flow && after.sessionId == before.sessionId
  {
  }

  lemma CreateKeepsIds(rows: Table, v: NewSession, generatedId: string, now: int)
    requires !(v.kind == Devin && v.flow == CallbackPKCE)
    ensures IdsKept(rows, Create(rows, v, generatedId, now).rows)
  {
  }

  /** Every step of a completion changes the table as one operation would. */
  function StepOp(w: World, id: nat, c: Choice): Op
    requires id in w.actors
  {
    match w.actors[id]
    case Overdue(s, _, _) => ExpireOp(Devin, CallbackPKCE, s, EXPIRED_MESSAGE, c.now)
    case DeniedOverdue(s) => ExpireOp(Devin, CallbackPKCE, s, EXPIRED_MESSAGE, c.now)
    case Ready(s, _) => ConsumeOp(Devin, CallbackPKCE, s, c.now)
    case Failing(s) => FinalizeOp(s, FAILED_MESSAGE, c)
    case Compensating(s) => FinalizeOp(s, COMPENSATION_MESSAGE, c)
    case Saving(s, fingerprint) =>
      if c.fault != NoFault then CleanupOp({}, 0)
      else PublishOp(s, UpsertedId(w.accounts, fingerprint, c.freshId), c.now)
    case Corrupt(s) => CancelOp(Devin, CallbackPKCE, s, CORRUPT_MESSAGE, c.now)
    case _ => CleanupOp({}, 0)
  }

  lemma StepIsOp(w: World, id: nat, c: Choice)
    requires id in w.actors
    ensures Advance(ViewOf(w, id), c).rows == Step(w.rows, StepOp(w, id, c))
  {
    hide Expire, Fail, Cancel, Consume, Get, Checked, UpsertLogin, UpsertedId;
    NoVictims(w.rows);
    if w.actors[id].Saving? {
      PublishIsOp(w.rows, w.accounts, w.actors[id].state, w.actors[id].fingerprint, c);
    }
  }

  lemma PublishIsOp(rows: Table, accounts: Accounts, s: State, fingerprint: string, c: Choice)
    ensures Publish(rows, accounts, s, fingerprint, c.freshId, c.now, c.fault).rows
         == if c.fault != NoFault then rows
            else CompleteConsumedDevin(rows, s, UpsertedId(accounts, fingerprint, c.freshId), c.now).rows
  {
    hide UpsertedId, UpsertLogin, Written;
  }

  lemma IdsSay(before: Table, after: Table, moves: seq<Move>)
    requires IdsKept(before, after) && RowsBegun(moves, before)
    ensures RowsBegun(moves, after)
  {
    hide Begun;
  }

  lemma ActCleared(moves: seq<Move>, w: World, id: nat, c: Choice)
    requires AllCleared(moves, w) && TableValid(w.rows) && id in w.actors
    ensures AllCleared(moves, Acted(w, id, Advance(ViewOf(w, id), c)))
  {
    StepIsOp(w, id, c);
    StepKeepsIds(w.rows, StepOp(w, id, c));
    NextCleared(moves, w, id, c);
    IdsSay(w.rows, Advance(ViewOf(w, id), c).rows, moves);
    hide StepOp, Step, Advance, IdsKept, RowsBegun, ActorCleared, Cleared;
  }

  /** What a completion comes to be, and what it exchanges, has been cleared. */
  lemma NextCleared(moves: seq<Move>, w: World, id: nat, c: Choice)
    requires AllCleared(moves, w) && id in w.actors
    ensures var v := Advance(ViewOf(w, id), c);
            && ActorCleared(moves, v.actor)
            && forall i :: 0 <= i < |v.exchanges| ==> Cleared(moves, v.exchanges[i].state, v.exchanges[i].code)
  {
    hide Requested, Begun, Cleared, Expire, Fail, Finalize, Cancel, Publish, Consume, Get, Checked;
    var a := w.actors[id];
    if a.Asked? || a.Reading? { CheckCleared(moves, w.rows, a); }
    assert ActorCleared(moves, a);
  }

  lemma CheckCleared(moves: seq<Move>, rows: Table, a: Actor)
    requires RowsBegun(moves, rows) && (a.Asked? || a.Reading?) && Requested(moves, a.state, a.sessionId, a.code)
    ensures var found := LookUp(rows, a.state);
            found.Ok? ==> ActorCleared(moves, Checked(found.value, a.state, a.sessionId, a.code))
  {
    hide Requested, Begun, Blank;
    var found := LookUp(rows, a.state);
    if found.Ok? {
      assert Mine(rows, a.state) && found.value.sessionId == rows[a.state].sessionId;
      if Checked(found.value, a.state, a.sessionId, a.code).Ready? {
        assert Begun(moves, a.state, rows[a.state].sessionId);
      }
    }
  }

  lemma MoveCleared(moves: seq<Move>, m: Move)
    requires AllCleared(moves, After(moves)) && WorldValid(After(moves))
    ensures AllCleared(moves + [m], After(moves + [m]))
  {
    hide AllCleared, WorldValid, Step, Create, Advance;
    var w := After(moves);
    assert (moves + [m])[..|moves|] == moves;
    AllStay(moves, m, w);
    if Possible(w, m) {
      match m {
        case Begin(s, sessionId, _, _, _, _) => BeginCleared(moves, m);
        case Call(id, s, sessionId, code) => CallCleared(moves, m);
        case Act(id, c) =>
          TableSays(w);
          ActCleared(moves + [m], w, id, c);
        case Elsewhere(op) =>
          TableSays(w);
          ElsewhereCleared(moves + [m], w, op);
        case Restart => NobodyCleared(moves + [m], w);
      }
    }
  }

  lemma TableSays(w: World)
    requires WorldValid(w)
    ensures TableValid(w.rows)
  {
    hide TableValid;
  }

  lemma ElsewhereCleared(moves: seq<Move>, w: World, op: Op)
    requires AllCleared(moves, w) && TableValid(w.rows) && IsElsewhere(op)
    ensures AllCleared(moves, w.(rows := Step(w.rows, op)))
  {
    StepKeepsIds(w.rows, op);
    IdsSay(w.rows, Step(w.rows, op), moves);
    hide Step, IdsKept, RowsBegun, ActorCleared, Cleared;
  }

  lemma NobodyCleared(moves: seq<Move>, w: World)
    requires AllCleared(moves, w)
    ensures AllCleared(moves, w.(actors := map[]))
  {
    hide RowsBegun, ActorCleared, Cleared;
  }

  lemma CallCleared(moves: seq<Move>, m: Move)
    requires AllCleared(moves + [m], After(moves)) && m.Call? && Possible(After(moves), m)
    ensures AllCleared(moves + [m], Next(After(moves), m))
  {
    hide RowsBegun, Cleared, After, Advance, Step, Create;
    assert AsksAt(moves + [m], |moves|, m.state, m.sessionId, m.code);
    assert Requested(moves + [m], m.state, m.sessionId, m.code);
  }

  lemma BeginCleared(moves: seq<Move>, m: Move)
    requires AllCleared(moves + [m], After(moves)) && m.Begin? && Possible(After(moves), m)
    ensures AllCleared(moves + [m], Next(After(moves), m))
  {
    hide ActorCleared, Cleared, RowsBegun, Begun, After, Next;
    var w, v := After(moves), Next(After(moves), m);
    if v != w {
      BegunRow(w, m);
      BegunNow(moves, m);
      RowsAdded(moves + [m], w.rows, v.rows, m.state);
    }
  }

  lemma BegunNow(moves: seq<Move>, m: Move)
    requires m.Begin? && m.state !in After(moves).begun && m.state in Next(After(moves), m).begun
    ensures Begun(moves + [m], m.state, m.sessionId)
  {
    hide Next;
    var more := moves + [m];
    assert more[..|moves|] == moves && more[..|moves| + 1] == more;
    assert After(more) == Next(After(moves), m);
    hide After;
    assert BeginsAt(more, |moves|, m.state, m.sessionId);
  }

  lemma RowsAdded(moves: seq<Move>, before: Table, after: Table, s: State)
    requires RowsBegun(moves, before) && s in after && after == before[s := after[s]]
    requires Begun(moves, s, after[s].sessionId)
    ensures RowsBegun(moves, after)
  {
    hide Begun;
    forall t | Mine(after, t) ensures Begun(moves, t, after[t].sessionId) {
      if t != s { assert Mine(before, t) && after[t] == before[t]; }
    }
  }

  /** A session that has begun has the session id it was begun with. */
  lemma BegunRow(w: World, m: Move)
    requires m.Begin? && Possible(w, m) && Next(w, m) != w
    ensures var v := Next(w, m);
            && m.state in v.rows && v.rows == w.rows[m.state := v.rows[m.state]] && v.actors == w.actors
            && v.rows[m.state].sessionId == m.sessionId && m.state in v.begun && v.exchanges == w.exchanges
  {
  }

  lemma {:induction false} AlwaysCleared(moves: seq<Move>)
    ensures AllCleared(moves, After(moves))
  {
    hide AllCleared, Next, WorldValid;
    if moves == [] {
      NothingCleared();
    } else {
      var most, m := moves[..|moves| - 1], moves[|moves| - 1];
      AlwaysCleared(most);
      AlwaysValid(most);
      MoveCleared(most, m);
      assert most + [m] == moves;
    }
  }

  lemma NothingCleared()
    ensures AllCleared([], START)
  {
  }

  // ----- Main result -----

  /**
   In every run, whatever is exchanged was asked for by a completion with a code, and with the id its session was begun
   with or none.
   */
  lemma ExchangesAreCleared(moves: seq<Move>, e: Exchange)
    requires e in After(moves).exchanges
    ensures Cleared(moves, e.state, e.code)
  {
    hide After, Cleared, RowsBegun, ActorCleared;
    AlwaysCleared(moves);
  }
}
