/**
 Consumed sessions are settled: each belongs to exactly one completion that is
 still at work, or else was left behind by a restart or by a completion that the
 database kept from failing it; and recovery settles those.
 */
module DevinLifecycleSettlement {
  import opened Provider
  import opened OAuthSessionSteps
  import opened OAuthInvariants
  import opened DevinLifecycleSteps
  import opened DevinLifecycleSafety

  /** A completion between consuming a session and settling it. */
  predicate AtWork(a: Actor, s: State) {
    (a.Holding? || a.Failing? || a.Saving? || a.Compensating?) && a.state == s
  }

  predicate Owns(actors: map<nat, Actor>, id: nat, s: State) {
    id in actors && AtWork(actors[id], s)
  }

  /** What a completion works on has begun, is pending no more, and is nobody else's work. */
  ghost predicate OwnersValid(w: World) {
    && (forall id, s :: Owns(w.actors, id, s) ==> s != "" && s in w.begun && !MineIn(w.rows, s, Pending))
    && (forall i, j, s :: Owns(w.actors, i, s) && Owns(w.actors, j, s) ==> i == j)
  }

  ghost predicate Owned(w: World, s: State) {
    exists id :: Owns(w.actors, id, s)
  }

  ghost predicate AllOwned(w: World, orphans: set<State>) {
    forall s :: MineIn(w.rows, s, Consumed) ==> s in orphans || Owned(w, s)
  }

  /** The session of a completion that ends without failing it, because the database refuses. */
  function Abandoned(w: World, m: Move): set<State> {
    if m.Act? && m.choice.refused && m.id in w.actors && (w.actors[m.id].Failing? || w.actors[m.id].Compensating?)
    then {w.actors[m.id].state} else {}
  }

  /** The sessions that a restart or a refused failing has left consumed and that are consumed still. */
  ghost function Orphans(moves: seq<Move>): set<State> {
    if moves == [] then {}
    else
      var most, m, w := moves[..|moves| - 1], moves[|moves| - 1], After(moves);
      if m.Restart? then set s | s in w.rows && MineIn(w.rows, s, Consumed)
      else set s | s in Orphans(most) + Abandoned(After(most), m) && MineIn(w.rows, s, Consumed)
  }

  // ----- One move -----

  lemma SameOwners(w: World, v: World)
    requires OwnersValid(w) && v.actors == w.actors && v.begun == w.begun
    requires forall s :: MineIn(v.rows, s, Pending) ==> MineIn(w.rows, s, Pending)
    ensures OwnersValid(v) && forall s :: Owned(v, s) <==> Owned(w, s)
  {
    hide AtWork, MineIn;
  }

  /** A completion moves on with the session it works on, or without any. */
  lemma ActorMoves(w: World, v: World, id: nat)
    requires OwnersValid(w) && id in v.actors && v.actors == w.actors[id := v.actors[id]] && v.begun == w.begun
    requires forall s :: MineIn(v.rows, s, Pending) ==> MineIn(w.rows, s, Pending)
    requires forall s :: AtWork(v.actors[id], s) ==> Owns(w.actors, id, s)
    ensures OwnersValid(v)
    ensures forall s :: Owned(w, s) ==> Owned(v, s) || Owns(w.actors, id, s)
  {
    hide AtWork, MineIn;
    forall i, s | Owns(v.actors, i, s) ensures Owns(w.actors, i, s) {}
    forall s | Owned(w, s) ensures Owned(v, s) || Owns(w.actors, id, s) {
      var i :| Owns(w.actors, i, s);
      assert i != id ==> Owns(v.actors, i, s);
    }
  }

  /** Only by consuming does a completion take on a session. */
  lemma ConsumingMoves(w: World, v: World, id: nat, s: State)
    requires OwnersValid(w) && s != "" && s in w.begun && ConsumedOne(w.rows, v.rows, s) && v.begun == w.begun
    requires id in w.actors && !w.actors[id].Finished? && !AtWork(w.actors[id], w.actors[id].state)
    requires id in v.actors && v.actors == w.actors[id := v.actors[id]] && AtWork(v.actors[id], s)
    ensures OwnersValid(v) && Owned(v, s)
    ensures forall t :: Owned(w, t) ==> Owned(v, t)
  {
    assert Owns(v.actors, id, s);
    assert MineIn(w.rows, s, Pending);
    forall i, t | Owns(v.actors, i, t) ensures (i == id && t == s) || (i != id && Owns(w.actors, i, t) && t != s) {
      if i != id { assert Owns(w.actors, i, t); }
    }
    forall t | MineIn(v.rows, t, Pending) ensures MineIn(w.rows, t, Pending) && t != s {}
    forall t | Owned(w, t) ensures Owned(v, t) {
      var i :| Owns(w.actors, i, t);
      assert Owns(v.actors, i, t);
    }
  }

  lemma QuietOwned(w: World, v: World, orphans: set<State>, more: set<State>)
    requires AllOwned(w, orphans) && AllQuiet(w.rows, v.rows)
    requires forall s :: MineIn(v.rows, s, Consumed) && Owned(w, s) ==> s in more || Owned(v, s)
    ensures AllOwned(v, orphans + more)
  {
    hide Quiet, AllQuiet, Owned;
    forall s | MineIn(v.rows, s, Consumed) ensures s in orphans + more || Owned(v, s) {
      QuietSays(w.rows, v.rows, s);
    }
  }

  lemma QuietPending(before: Table, after: Table)
    requires AllQuiet(before, after)
    ensures forall s :: MineIn(after, s, Pending) ==> MineIn(before, s, Pending)
  {
    hide Quiet, AllQuiet;
    forall s | MineIn(after, s, Pending) ensures MineIn(before, s, Pending) {
      QuietSays(before, after, s);
    }
  }

  /** Failing a session that is one's own settles it. */
  lemma FailSettles(rows: Table, s: State, sanitized: string, now: int)
    requires s != ""
    ensures !MineIn(Fail(rows, Devin, CallbackPKCE, s, sanitized, now).rows, s, Consumed)
  {
  }

  /** What a completion has let go of is consumed no more, unless it was abandoned. */
  lemma LetGoIsSettled(w: World, id: nat, c: Choice, s: State)
    requires OwnersValid(w) && TableValid(w.rows) && Owns(w.actors, id, s)
    requires !AtWork(Advance(ViewOf(w, id), c).actor, s) && s !in Abandoned(w, Act(id, c))
    ensures !MineIn(Advance(ViewOf(w, id), c).rows, s, Consumed)
  {
    hide Publish, Fail, TableValid, MineIn;
    match w.actors[id] {
      case Failing(_) => FailSettles(w.rows, s, FAILED_MESSAGE, c.now);
      case Compensating(_) => FailSettles(w.rows, s, COMPENSATION_MESSAGE, c.now);
      case Saving(_, fingerprint) =>
        PublishSays(w.rows, w.accounts, s, fingerprint, c.freshId, c.now, c.fault);
        StatusDiffers(Advance(ViewOf(w, id), c).rows, s);
      case _ =>
    }
  }

  lemma StatusDiffers(rows: Table, s: State)
    ensures !(MineIn(rows, s, Completed) && MineIn(rows, s, Consumed))
  {
  }

  /** All steps but the successful consuming work with what the completion already has. */
  lemma WorkStays(w: World, id: nat, c: Choice, s: State)
    requires id in w.actors && AtWork(Advance(ViewOf(w, id), c).actor, s)
    requires w.actors[id].Ready? ==> Consume(w.rows, Devin, CallbackPKCE, w.actors[id].state, c.now).result.Err?
    ensures Owns(w.actors, id, s)
  {
    hide Get, Expire, Fail, Cancel, Publish, Consume, Checked;
    CheckedKinds();
  }

  lemma ActOwned(w: World, id: nat, c: Choice, orphans: set<State>)
    requires OwnersValid(w) && AllOwned(w, orphans) && WorldValid(w) && id in w.actors
    ensures var v := Acted(w, id, Advance(ViewOf(w, id), c));
            OwnersValid(v) && AllOwned(v, orphans + Abandoned(w, Act(id, c)))
  {
    var v := Acted(w, id, Advance(ViewOf(w, id), c));
    if w.actors[id].Ready? && Consume(w.rows, Devin, CallbackPKCE, w.actors[id].state, c.now).result.Ok? {
      ConsumeOwned(w, id, c, orphans);
    } else {
      forall s | AtWork(v.actors[id], s) ensures Owns(w.actors, id, s) { WorkStays(w, id, c, s); }
      if w.actors[id].Saving? { SavingOwned(w, id, c, orphans); } else { OtherOwned(w, id, c, orphans); }
    }
    hide *;
  }

  lemma ConsumeOwned(w: World, id: nat, c: Choice, orphans: set<State>)
    requires OwnersValid(w) && AllOwned(w, orphans) && WorldValid(w) && id in w.actors && w.actors[id].Ready?
    requires Consume(w.rows, Devin, CallbackPKCE, w.actors[id].state, c.now).result.Ok?
    ensures var v := Acted(w, id, Advance(ViewOf(w, id), c));
            OwnersValid(v) && AllOwned(v, orphans + Abandoned(w, Act(id, c)))
  {
    var s := w.actors[id].state;
    ConsumeSays(w.rows, s, c.now);
    var v := Acted(w, id, Advance(ViewOf(w, id), c));
    assert s != "" && s in w.begun;
    hide Consume, OwnersValid, WorldValid;
    ConsumingMoves(w, v, id, s);
    hide Owned, Abandoned;
    forall t | MineIn(v.rows, t, Consumed) ensures t in orphans || Owned(v, t) {
      assert t != s ==> MineIn(w.rows, t, Consumed);
    }
  }

  /** The steps that are quiet on the table. */
  lemma OtherOwned(w: World, id: nat, c: Choice, orphans: set<State>)
    requires OwnersValid(w) && AllOwned(w, orphans) && TableValid(w.rows) && id in w.actors && !w.actors[id].Saving?
    requires w.actors[id].Ready? ==> Consume(w.rows, Devin, CallbackPKCE, w.actors[id].state, c.now).result.Err?
    requires forall s :: AtWork(Advance(ViewOf(w, id), c).actor, s) ==> Owns(w.actors, id, s)
    ensures var v := Acted(w, id, Advance(ViewOf(w, id), c));
            OwnersValid(v) && AllOwned(v, orphans + Abandoned(w, Act(id, c)))
  {
    hide OwnersValid, AllOwned, TableValid, AllQuiet, MineIn, Owned, AtWork;
    var v := Acted(w, id, Advance(ViewOf(w, id), c));
    if w.actors[id].Ready? {
      ConsumeSays(w.rows, w.actors[id].state, c.now);
      NothingQuiet(w.rows);
    } else {
      PlainStepQuiet(w, id, c);
    }
    QuietPending(w.rows, v.rows);
    ActorMoves(w, v, id);
    OwnedOn(w, id, c, v);
    QuietOwned(w, v, orphans, Abandoned(w, Act(id, c)));
  }

  lemma OwnedOn(w: World, id: nat, c: Choice, v: World)
    requires OwnersValid(w) && TableValid(w.rows) && id in w.actors && v == Acted(w, id, Advance(ViewOf(w, id), c))
    requires forall s :: Owned(w, s) ==> Owned(v, s) || Owns(w.actors, id, s)
    ensures forall s :: MineIn(v.rows, s, Consumed) && Owned(w, s) ==> s in Abandoned(w, Act(id, c)) || Owned(v, s)
  {
    forall s | MineIn(v.rows, s, Consumed) && Owned(w, s) ensures s in Abandoned(w, Act(id, c)) || Owned(v, s) {
      if Owns(w.actors, id, s) {
        if AtWork(v.actors[id], s) {
          assert Owns(v.actors, id, s);
        } else if s !in Abandoned(w, Act(id, c)) {
          LetGoIsSettled(w, id, c, s);
        }
      }
    }
    hide *;
  }

  lemma SavingOwned(w: World, id: nat, c: Choice, orphans: set<State>)
    requires OwnersValid(w) && AllOwned(w, orphans) && TableValid(w.rows) && id in w.actors && w.actors[id].Saving?
    requires forall s :: AtWork(Advance(ViewOf(w, id), c).actor, s) ==> Owns(w.actors, id, s)
    ensures var v := Acted(w, id, Advance(ViewOf(w, id), c));
            OwnersValid(v) && AllOwned(v, orphans + Abandoned(w, Act(id, c)))
  {
    hide OwnersValid, TableValid, Owned, AtWork, Publish;
    var a := w.actors[id];
    var v := Acted(w, id, Advance(ViewOf(w, id), c));
    PublishSays(w.rows, w.accounts, a.state, a.fingerprint, c.freshId, c.now, c.fault);
    forall s, status | MineIn(v.rows, s, status) && status != Completed ensures MineIn(w.rows, s, status) {}
    ActorMoves(w, v, id);
    OwnedOn(w, id, c, v);
  }

  lemma BeginOwned(w: World, m: Move, orphans: set<State>)
    requires OwnersValid(w) && AllOwned(w, orphans) && m.Begin? && Possible(w, m)
    ensures OwnersValid(Next(w, m)) && AllOwned(Next(w, m), orphans)
  {
    hide Create, AtWork, SessionToBegin;
    CreateBegins(w, m);
    var v := Next(w, m);
    if v != w {
      forall t, status | t != m.state && MineIn(v.rows, t, status) ensures MineIn(w.rows, t, status) {}
      forall i, s | Owns(v.actors, i, s) ensures Owns(w.actors, i, s) && s != m.state {}
      forall s | Owned(w, s) ensures Owned(v, s) {
        var i :| Owns(w.actors, i, s);
        assert Owns(v.actors, i, s);
      }
    }
  }

  lemma ElsewhereOwned(w: World, op: Op, orphans: set<State>)
    requires OwnersValid(w) && AllOwned(w, orphans) && IsElsewhere(op)
    ensures var v := w.(rows := Step(w.rows, op)); OwnersValid(v) && AllOwned(v, orphans)
  {
    var v := w.(rows := Step(w.rows, op));
    ElsewhereQuiet(w.rows, op);
    QuietPending(w.rows, v.rows);
    SameOwners(w, v);
    QuietOwned(w, v, orphans, {});
    assert orphans + {} == orphans;
    hide *;
  }

  lemma CallOwned(w: World, id: nat, a: Actor, orphans: set<State>)
    requires OwnersValid(w) && AllOwned(w, orphans) && id !in w.actors && a.Asked?
    ensures var v := w.(actors := w.actors[id := a]); OwnersValid(v) && AllOwned(v, orphans)
  {
    var v := w.(actors := w.actors[id := a]);
    ActorMoves(w, v, id);
    hide MineIn, Owned;
  }

  lemma NextOwned(w: World, m: Move, orphans: set<State>)
    requires OwnersValid(w) && AllOwned(w, orphans) && WorldValid(w) && !m.Restart?
    ensures OwnersValid(Next(w, m)) && AllOwned(Next(w, m), orphans + Abandoned(w, m))
  {
    hide OwnersValid, AllOwned, WorldValid, Advance, Step, Create;
    assert !m.Act? ==> orphans + Abandoned(w, m) == orphans;
    if !Possible(w, m) {
      StillOwned(w, orphans, orphans + Abandoned(w, m));
    } else {
      match m {
        case Begin(_, _, _, _, _, _) => BeginOwned(w, m, orphans);
        case Call(id, s, sessionId, code) => CallOwned(w, id, Asked(s, sessionId, code), orphans);
        case Act(id, c) => ActOwned(w, id, c, orphans);
        case Elsewhere(op) => ElsewhereOwned(w, op, orphans);
      }
    }
  }

  // ----- Runs -----

  lemma {:induction false} AlwaysOwned(moves: seq<Move>)
    ensures OwnersValid(After(moves)) && AllOwned(After(moves), Orphans(moves))
  {
    hide OwnersValid, AllOwned, WorldValid, Next, Possible;
    if moves == [] {
      StartOwned();
    } else {
      var most, m := moves[..|moves| - 1], moves[|moves| - 1];
      AlwaysOwned(most);
      AlwaysValid(most);
      if m.Restart? {
        RestartOwned(moves);
      } else {
        NextOwned(After(most), m, Orphans(most));
        StillOwned(After(moves), Orphans(most) + Abandoned(After(most), m), Orphans(moves));
      }
    }
  }

  lemma StartOwned()
    ensures OwnersValid(START) && AllOwned(START, {})
  {
  }

  lemma RestartOwned(moves: seq<Move>)
    requires moves != [] && moves[|moves| - 1].Restart?
    ensures OwnersValid(After(moves)) && AllOwned(After(moves), Orphans(moves))
  {
    hide OwnersValid, After, Owned;
    var w := After(moves);
    RestartClears(moves);
    NobodyOwns(w);
    forall s | MineIn(w.rows, s, Consumed) ensures s in Orphans(moves) {}
  }

  lemma RestartClears(moves: seq<Move>)
    requires moves != [] && moves[|moves| - 1].Restart?
    ensures After(moves).actors == map[]
  {
    hide Advance, Step, Create;
  }

  lemma NobodyOwns(w: World)
    requires w.actors == map[]
    ensures OwnersValid(w)
  {
  }

  lemma StillOwned(w: World, before: set<State>, after: set<State>)
    requires AllOwned(w, before) && forall s :: s in before && MineIn(w.rows, s, Consumed) ==> s in after
    ensures AllOwned(w, after)
  {
    hide Owned, MineIn;
  }

  // ----- Main results -----

  ghost predicate ExactlyOneOwner(w: World, s: State) {
    exists id :: Owns(w.actors, id, s) && forall other :: Owns(w.actors, other, s) ==> other == id
  }

  /**
   In every run, a consumed Devin session is the work of exactly one completion that has still to settle it, unless a
   restart caught it consumed, or the database refused to fail it, and nothing has settled it since.
   */
  lemma ConsumedIsOwned(moves: seq<Move>, s: State)
    requires MineIn(After(moves).rows, s, Consumed)
    ensures s in Orphans(moves) || ExactlyOneOwner(After(moves), s)
  {
    AlwaysOwned(moves);
    hide AtWork, MineIn, After, Orphans;
  }

  /** Neither a restart nor a refusal to fail a session. */
  predicate Undisturbed(m: Move) {
    !m.Restart? && !(m.Act? && m.choice.refused)
  }

  /** Without a disturbance nothing is left behind. */
  lemma {:induction false} NoOrphans(moves: seq<Move>)
    requires forall i :: 0 <= i < |moves| ==> Undisturbed(moves[i])
    ensures Orphans(moves) == {}
  {
    hide MineIn, After;
    if moves != [] { NoOrphans(moves[..|moves| - 1]); }
  }

  predicate Recovers(m: Move, s: State) {
    m.Elsewhere? && m.op.FailConsumedOp? && m.op.kind == Devin && m.op.flow == CallbackPKCE && m.op.state == s
  }

  lemma RecoverySettles(w: World, m: Move, s: State)
    requires Recovers(m, s)
    ensures !MineIn(Next(w, m).rows, s, Consumed)
  {
  }

  /** A session left behind is still left behind only if no move since has recovered it. */
  lemma {:induction false} OrphansShrink(before: seq<Move>, after: seq<Move>)
    requires forall i :: 0 <= i < |after| ==> Undisturbed(after[i])
    ensures forall s :: s in Orphans(before + after) ==>
              s in Orphans(before) && forall i :: 0 <= i < |after| ==> !Recovers(after[i], s)
    decreases |after|
  {
    hide MineIn, Next, Recovers;
    if after == [] {
      assert before + after == before;
    } else {
      var most, m := after[..|after| - 1], after[|after| - 1];
      OrphansShrink(before, most);
      assert (before + after)[..|before + after| - 1] == before + most;
      forall s | s in Orphans(before + after)
        ensures s in Orphans(before) && forall i :: 0 <= i < |after| ==> !Recovers(after[i], s)
      {
        if Recovers(m, s) { RecoverySettles(After(before + most), m, s); }
        assert forall i :: 0 <= i < |most| ==> most[i] == after[i];
      }
    }
  }

  /** After the last disturbance, recovering the sessions left behind settles them, whatever else goes on meanwhile. */
  lemma RecoveryLeavesNone(before: seq<Move>, after: seq<Move>)
    requires forall i :: 0 <= i < |after| ==> Undisturbed(after[i])
    requires forall s :: s in Orphans(before) ==> exists i :: 0 <= i < |after| && Recovers(after[i], s)
    ensures Orphans(before + after) == {}
  {
    hide Recovers, Orphans;
    OrphansShrink(before, after);
  }

  /**
   So once every completion has ended, no Devin session is consumed: not in a run without a disturbance, where before is
   empty, and not after one, when the sessions left behind have been recovered.
   */
  lemma SettledInTheEnd(before: seq<Move>, after: seq<Move>, s: State)
    requires forall i :: 0 <= i < |after| ==> Undisturbed(after[i])
    requires forall t :: t in Orphans(before) ==> exists i :: 0 <= i < |after| && Recovers(after[i], t)
    requires var w := After(before + after); forall id :: id in w.actors ==> w.actors[id].Finished?
    ensures !MineIn(After(before + after).rows, s, Consumed)
  {
    hide After, Orphans, MineIn, Recovers;
    RecoveryLeavesNone(before, after);
    if MineIn(After(before + after).rows, s, Consumed) {
      ConsumedIsOwned(before + after, s);
    }
  }
}
