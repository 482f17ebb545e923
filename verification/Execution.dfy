/**
 The failover loop: candidates are tried in order, each with at most one retry
 after its credentials have been renewed, until one serves the request or a
 failure does not allow another. What stores and providers answer is given.
 */
module ExecutionSteps {
  import opened Basics
  import opened Provider
  import opened CooldownSteps

  /** A failure: whether the provider reported it, and whether a stream had been opened when it came. */
  datatype Failure = Failure(upstream: bool, streamed: bool, c: Classification)

  /** Renewing credentials; a failure may carry a classification of its own. */
  datatype Recovery = Recovered | NotRecovered(typed: Option<Classification>)

  /** What applying a failure found out about the account's cooldown. */
  datatype Stored = StoreFailed | NoCooldown | CoolingUntil(until: int, remaining: int)

  type Events = seq<string>

  /** Everything one candidate meets: its account's provider, its credential, up to two generations, and the stores. */
  datatype Reply = Reply(
    kind: Option<Kind>, credential: Option<Classification>, first: Result<Events, Failure>, recovery: Recovery,
    second: Result<Events, Failure>, cleared: bool, stored: Stored)

  datatype Action =
    | Generate(account: string)
    | Open(account: string)
    | Close(account: string)
    | Recover(account: string)
    | Record(account: string, failed: bool)
    | Clear(account: string)
    | Blame(account: string, c: Classification)

  datatype Answer = Served(account: string, events: Events) | Failed(c: Classification) | Broken | NoneAvailable

  /** How a candidate's turn ends: with an answer, passed over, or with the next one after a failure. */
  datatype Verdict = Stop(answer: Answer) | Skip | Continue(c: Classification)

  datatype Turn = Turn(actions: seq<Action>, verdict: Verdict)

  function Cooled(c: Classification, stored: Stored): Classification {
    if stored.CoolingUntil? then c.(retryAfter := Some(stored.until), cooldown := stored.remaining) else c
  }

  function GiveUp(account: string, actions: seq<Action>, c: Classification, stored: Stored): Turn {
    Turn(actions + [Record(account, true), Blame(account, c)],
         if stored.StoreFailed? then Stop(Broken)
         else if c.retryNext then Continue(Cooled(c, stored))
         else Stop(Failed(Cooled(c, stored))))
  }

  /** A stream is only opened here; it records its own usage later. */
  function Serve(account: string, actions: seq<Action>, events: Events, cleared: bool, streaming: bool): Turn {
    if streaming then Turn(actions, Stop(Served(account, events)))
    else if !cleared then Turn(actions + [Clear(account)], Stop(Broken))
    else Turn(actions + [Clear(account), Record(account, false)], Stop(Served(account, events)))
  }

  /** One generation; a stream whose first event fails is closed again. */
  function Generated(account: string, outcome: Result<Events, Failure>, streaming: bool): seq<Action> {
    if !streaming then [Generate(account)]
    else if outcome.Ok? then [Generate(account), Open(account)]
    else if outcome.error.streamed then [Generate(account), Open(account), Close(account)]
    else [Generate(account)]
  }

  function Attempt(account: string, wanted: Kind, r: Reply, streaming: bool): Turn {
    if r.kind.None? then Turn([], Stop(Broken))
    else if r.kind.value != wanted then Turn([], Skip)
    else if r.credential.Some? then GiveUp(account, [], r.credential.value, r.stored)
    else
    var once := Generated(account, r.first, streaming);
    if r.first.Ok? then Serve(account, once, r.first.value, r.cleared, streaming)
    else if !r.first.error.c.refreshSame || !r.first.error.upstream
    then GiveUp(account, once, r.first.error.c, r.stored)
    else if r.recovery.NotRecovered? then
      GiveUp(account, once + [Recover(account)],
             if r.recovery.typed.Some? then r.recovery.typed.value else r.first.error.c, r.stored)
    else
      var twice := once + [Recover(account)] + Generated(account, r.second, streaming);
      if r.second.Ok? then Serve(account, twice, r.second.value, r.cleared, streaming)
      else GiveUp(account, twice, r.second.error.c, r.stored)
  }

  datatype Outcome = Outcome(actions: seq<Action>, answer: Answer)

  /** The turns of the candidates from the k-th on, after the last failure so far. */
  function Loop(ordered: seq<string>, replies: seq<Reply>, k: nat, wanted: Kind, last: Option<Classification>,
        streaming: bool): Outcome
    requires |replies| == |ordered| && k <= |ordered|
    decreases |ordered| - k
  {
    if k == |ordered| then Outcome([], if last.Some? then Failed(last.value) else NoneAvailable)
    else
      var turn := Attempt(ordered[k], wanted, replies[k], streaming);
      match turn.verdict
      case Stop(answer) => Outcome(turn.actions, answer)
      case Skip => Prefixed(turn.actions, Loop(ordered, replies, k + 1, wanted, last, streaming))
      case Continue(c) => Prefixed(turn.actions, Loop(ordered, replies, k + 1, wanted, Some(c), streaming))
  }

  function Prefixed(actions: seq<Action>, rest: Outcome): Outcome {
    rest.(actions := actions + rest.actions)
  }
}

/** The two loops as the program runs them. */
module Execution {
  import opened Basics
  import opened Provider
  import opened CooldownSteps
  import opened ExecutionSteps

  /** One renewal at most; the classification is the renewal's own, when it has one, and otherwise the original. */
  method RecoverAuthentication(account: string, r: Reply) returns (actions: seq<Action>, c: Classification,
        retrySame: bool)
    requires r.first.Err?
    ensures retrySame <==> r.first.error.upstream && r.recovery.Recovered?
    ensures actions == if r.first.error.upstream then [Recover(account)] else []
    ensures c == if r.first.error.upstream && r.recovery.NotRecovered? && r.recovery.typed.Some?
                 then r.recovery.typed.value else r.first.error.c
  {
    actions, c, retrySame := [], r.first.error.c, false;
    if !r.first.error.upstream { return; }
    actions := [Recover(account)];
    match r.recovery {
      case NotRecovered(typed) =>
        if typed.Some? { c := typed.value; }
      case Recovered => retrySame := true;
    }
  }

  /** Asks for one generation; a stream counts as one once its first event has come. */
  method Generation(account: string, outcome: Result<Events, Failure>, streaming: bool) returns (actions: seq<Action>)
    ensures actions == Generated(account, outcome, streaming)
  {
    actions := [Generate(account)];
    if streaming && (outcome.Ok? || outcome.error.streamed) {
      actions := actions + [Open(account)];
      if outcome.Err? { actions := actions + [Close(account)]; }
    }
  }

  method TryCandidate(account: string, wanted: Kind, r: Reply, streaming: bool) returns (turn: Turn)
    ensures turn == Attempt(account, wanted, r, streaming)
  {
    if r.kind.None? { return Turn([], Stop(Broken)); }
    if r.kind.value != wanted { return Turn([], Skip); }
    if r.credential.Some? { return GiveUp(account, [], r.credential.value, r.stored); }
    var actions := Generation(account, r.first, streaming);
    if r.first.Ok? { return Serve(account, actions, r.first.value, r.cleared, streaming); }
    var classified := r.first.error.c;
    if classified.refreshSame {
      var renewed, recovery, retrySame := RecoverAuthentication(account, r);
      classified := recovery;
      actions := actions + renewed;
      if retrySame {
        var again := Generation(account, r.second, streaming);
        actions := actions + again;
        if r.second.Ok? { return Serve(account, actions, r.second.value, r.cleared, streaming); }
        classified := r.second.error.c;
      }
    }
    return GiveUp(account, actions, classified, r.stored);
  }

  /** The loop over the candidates, for an answer (or, streaming, for an open stream). */
  method Execute(ordered: seq<string>, replies: seq<Reply>, wanted: Kind,
        streaming: bool) returns (actions: seq<Action>, answer: Answer)
    requires |replies| == |ordered|
    ensures Outcome(actions, answer) == Loop(ordered, replies, 0, wanted, None, streaming)
  {
    actions := [];
    var last: Option<Classification> := None;
    for k := 0 to |ordered|
      invariant Loop(ordered, replies, 0, wanted, None, streaming)
             == Prefixed(actions, Loop(ordered, replies, k, wanted, last, streaming))
    {
      hide Attempt;
      var turn := TryCandidate(ordered[k], wanted, replies[k], streaming);
      LoopStep(ordered, replies, k, wanted, last, streaming, actions);
      actions := actions + turn.actions;
      match turn.verdict {
        case Stop(final) => return actions, final;
        case Skip => continue;
        case Continue(c) => last := Some(c);
      }
    }
    if last.Some? { return actions, Failed(last.value); }
    return actions, NoneAvailable;
  }

  lemma LoopStep(ordered: seq<string>, replies: seq<Reply>, k: nat, wanted: Kind, last: Option<Classification>,
        streaming: bool, before: seq<Action>)
    requires |replies| == |ordered| && k < |ordered|
    ensures var turn := Attempt(ordered[k], wanted, replies[k], streaming);
            Prefixed(before, Loop(ordered, replies, k, wanted, last, streaming)) ==
              match turn.verdict
              case Stop(answer) => Outcome(before + turn.actions, answer)
              case Skip => Prefixed(before + turn.actions, Loop(ordered, replies, k + 1, wanted, last, streaming))
              case Continue(c) =>
                Prefixed(before + turn.actions, Loop(ordered, replies, k + 1, wanted, Some(c), streaming))
  {
    hide Attempt;
    var turn := Attempt(ordered[k], wanted, replies[k], streaming);
    var rest := Loop(ordered, replies, k + 1, wanted, if turn.verdict.Continue? then Some(turn.verdict.c) else last,
                     streaming);
    assert before + (turn.actions + rest.actions) == (before + turn.actions) + rest.actions;
  }
}

/** What every run of the loop keeps to. */
module ExecutionLaws {
  import opened Basics
  import opened Provider
  import opened CooldownSteps
  import opened ExecutionSteps

  datatype What = Generations | Renewals | Records | Successes | Opened | Closed

  predicate Is(a: Action, what: What, account: string) {
    match what
    case Generations => a == Generate(account)
    case Renewals => a == Recover(account)
    case Records => a.Record? && a.account == account
    case Successes => a == Record(account, false)
    case Opened => a == Open(account)
    case Closed => a == Close(account)
  }

  function Count(actions: seq<Action>, what: What, account: string): nat {
    if actions == [] then 0
    else Count(actions[..|actions| - 1], what, account) + if Is(actions[|actions| - 1], what, account) then 1 else 0
  }

  lemma {:induction false} CountAppend(xs: seq<Action>, ys: seq<Action>, what: What, account: string)
    ensures Count(xs + ys, what, account) == Count(xs, what, account) + Count(ys, what, account)
  {
    hide Is;
    if ys == [] {
      assert xs + ys == xs;
    } else {
      CountAppend(xs, ys[..|ys| - 1], what, account);
      assert (xs + ys)[..|xs + ys| - 1] == xs + ys[..|ys| - 1];
    }
  }

  /** Counting is over an account's own actions. */
  lemma {:induction false} CountNone(actions: seq<Action>, what: What, account: string)
    requires forall i :: 0 <= i < |actions| ==> actions[i].account != account
    ensures Count(actions, what, account) == 0
  {
    if actions != [] {
      CountNone(actions[..|actions| - 1], what, account);
    }
  }

  lemma CountMore(xs: seq<Action>, a: Action, what: What, account: string)
    ensures Count(xs + [a], what, account) == Count(xs, what, account) + if Is(a, what, account) then 1 else 0
  {
    assert (xs + [a])[..|xs|] == xs;
  }

  /** What a turn may do for its account. */
  ghost predicate TurnKeeps(t: Turn, account: string, wanted: Kind, r: Reply, streaming: bool) {
    && (forall i :: 0 <= i < |t.actions| ==> t.actions[i].account == account)
    && (t.actions != [] ==> r.kind == Some(wanted))
    && Count(t.actions, Generations, account) <= 1 + Count(t.actions, Renewals, account)
    && Count(t.actions, Renewals, account) <= 1
    && Count(t.actions, Records, account) <= 1
    && (t.verdict.Continue? ==> t.verdict.c.retryNext && Count(t.actions, Records, account) == 1)
    && (t.verdict.Stop? && t.verdict.answer.Served? ==>
          t.verdict.answer.account == account && r.kind == Some(wanted)
          && Count(t.actions, Records, account) == Count(t.actions, Successes, account) == (if streaming then 0 else 1))
    && (t.verdict.Stop? && !t.verdict.answer.Served? ==> Count(t.actions, Successes, account) == 0)
    && (!t.verdict.Stop? ==> Count(t.actions, Successes, account) == 0)
    && Count(t.actions, Opened, account)
       == Count(t.actions, Closed, account)
          + (if streaming && t.verdict.Stop? && t.verdict.answer.Served? then 1 else 0)
    && (t.verdict.Stop? ==> !t.verdict.answer.NoneAvailable?)
  }

  /** The counts of one account. */
  datatype Tally = Tally(generations: nat, renewals: nat, records: nat, successes: nat, opens: nat, closes: nat)

  function TallyOf(xs: seq<Action>, account: string): Tally {
    Tally(Count(xs, Generations, account), Count(xs, Renewals, account), Count(xs, Records, account),
          Count(xs, Successes, account), Count(xs, Opened, account), Count(xs, Closed, account))
  }

  function Plus(t: Tally, a: Action): Tally {
    match a
    case Generate(_) => t.(generations := t.generations + 1)
    case Open(_) => t.(opens := t.opens + 1)
    case Close(_) => t.(closes := t.closes + 1)
    case Recover(_) => t.(renewals := t.renewals + 1)
    case Record(_, failed) => t.(records := t.records + 1, successes := t.successes + if failed then 0 else 1)
    case Clear(_) => t
    case Blame(_, _) => t
  }

  lemma TallyMore(xs: seq<Action>, a: Action)
    ensures TallyOf(xs + [a], a.account) == Plus(TallyOf(xs, a.account), a)
  {
    hide Count;
    CountMore(xs, a, Generations, a.account);
    CountMore(xs, a, Renewals, a.account);
    CountMore(xs, a, Records, a.account);
    CountMore(xs, a, Successes, a.account);
    CountMore(xs, a, Opened, a.account);
    CountMore(xs, a, Closed, a.account);
  }

  /** The actions before a turn's last ones: at most two generations with a renewal between, and streams left open. */
  ghost predicate Opening(xs: seq<Action>, account: string, left: nat) {
    && (forall i :: 0 <= i < |xs| ==> xs[i].account == account)
    && var t := TallyOf(xs, account);
       t.generations <= 1 + t.renewals && t.renewals <= 1 && t.records == t.successes == 0 && t.opens == t.closes + left
  }

  lemma NoOpening(account: string)
    ensures Opening([], account, 0) && TallyOf([], account) == Tally(0, 0, 0, 0, 0, 0)
  {
  }

  /** A generation leaves a stream open exactly when it succeeds as one. */
  lemma GeneratedTally(xs: seq<Action>, account: string, outcome: Result<Events, Failure>, streaming: bool)
    requires Opening(xs, account, 0)
    ensures var more := xs + Generated(account, outcome, streaming);
            && (forall i :: 0 <= i < |more| ==> more[i].account == account)
            && var t, n := TallyOf(xs, account), TallyOf(more, account);
               && n.generations == t.generations + 1 && n.renewals == t.renewals && n.records == n.successes == 0
               && n.opens == n.closes + if streaming && outcome.Ok? then 1 else 0
  {
    hide TallyOf;
    TallyMore(xs, Generate(account));
    TallyMore(xs + [Generate(account)], Open(account));
    TallyMore(xs + [Generate(account)] + [Open(account)], Close(account));
    assert xs + [Generate(account)] + [Open(account)] == xs + [Generate(account), Open(account)];
    assert xs + [Generate(account)] + [Open(account)] + [Close(account)]
        == xs + [Generate(account), Open(account), Close(account)];
  }

  function OpenAfter(outcome: Result<Events, Failure>, streaming: bool): nat {
    if streaming && outcome.Ok? then 1 else 0
  }

  lemma OnceOpens(account: string, r: Reply, streaming: bool)
    ensures Opening(Generated(account, r.first, streaming), account, OpenAfter(r.first, streaming))
    ensures TallyOf(Generated(account, r.first, streaming), account).generations == 1
    ensures TallyOf(Generated(account, r.first, streaming), account).renewals == 0
  {
    NoOpening(account);
    hide TallyOf, Generated;
    GeneratedTally([], account, r.first, streaming);
    assert [] + Generated(account, r.first, streaming) == Generated(account, r.first, streaming);
  }

  lemma TwiceOpens(account: string, r: Reply, streaming: bool)
    requires r.first.Err?
    ensures var once := Generated(account, r.first, streaming);
            && Opening(once + [Recover(account)], account, 0)
            && Opening(once + [Recover(account)] + Generated(account, r.second, streaming), account,
                       OpenAfter(r.second, streaming))
  {
    hide TallyOf, Generated;
    OnceOpens(account, r, streaming);
    var once := Generated(account, r.first, streaming);
    TallyMore(once, Recover(account));
    GeneratedTally(once + [Recover(account)], account, r.second, streaming);
  }

  lemma GiveUpKeeps(account: string, actions: seq<Action>, c: Classification, wanted: Kind, r: Reply, streaming: bool)
    requires Opening(actions, account, 0) && r.kind == Some(wanted)
    ensures TurnKeeps(GiveUp(account, actions, c, r.stored), account, wanted, r, streaming)
  {
    hide Count;
    TallyMore(actions, Record(account, true));
    TallyMore(actions + [Record(account, true)], Blame(account, c));
    assert actions + [Record(account, true)] + [Blame(account, c)]
        == actions + [Record(account, true), Blame(account, c)];
  }

  lemma ServeKeeps(account: string, actions: seq<Action>, events: Events, wanted: Kind, r: Reply, streaming: bool)
    requires Opening(actions, account, if streaming then 1 else 0) && r.kind == Some(wanted)
    ensures TurnKeeps(Serve(account, actions, events, r.cleared, streaming), account, wanted, r, streaming)
  {
    hide Count;
    if streaming {
      assert Serve(account, actions, events, r.cleared, streaming) == Turn(actions, Stop(Served(account, events)));
    } else {
      TallyMore(actions, Clear(account));
      TallyMore(actions + [Clear(account)], Record(account, false));
      assert actions + [Clear(account)] + [Record(account, false)]
          == actions + [Clear(account), Record(account, false)];
    }
  }

  lemma AttemptKeeps(account: string, wanted: Kind, r: Reply, streaming: bool)
    ensures TurnKeeps(Attempt(account, wanted, r, streaming), account, wanted, r, streaming)
  {
    hide TurnKeeps, GiveUp, Serve, Generated, Opening;
    if r.kind != Some(wanted) {
      IdleKeeps(account, wanted, r, streaming);
    } else if r.credential.Some? {
      NoOpening(account);
      GiveUpKeeps(account, [], r.credential.value, wanted, r, streaming);
    } else {
      var once := Generated(account, r.first, streaming);
      OnceOpens(account, r, streaming);
      if r.first.Ok? {
        ServeKeeps(account, once, r.first.value, wanted, r, streaming);
      } else {
        GiveUpKeeps(account, once, r.first.error.c, wanted, r, streaming);
        TwiceOpens(account, r, streaming);
        var c := if r.recovery.NotRecovered? && r.recovery.typed.Some? then r.recovery.typed.value else r.first.error.c;
        GiveUpKeeps(account, once + [Recover(account)], c, wanted, r, streaming);
        var twice := once + [Recover(account)] + Generated(account, r.second, streaming);
        if r.second.Ok? {
          ServeKeeps(account, twice, r.second.value, wanted, r, streaming);
        } else {
          GiveUpKeeps(account, twice, r.second.error.c, wanted, r, streaming);
        }
      }
    }
  }

  lemma IdleKeeps(account: string, wanted: Kind, r: Reply, streaming: bool)
    ensures TurnKeeps(Turn([], Stop(Broken)), account, wanted, r, streaming)
    ensures TurnKeeps(Turn([], Skip), account, wanted, r, streaming)
  {
    NoOpening(account);
    hide Count;
  }

  predicate Unique(ids: seq<string>) {
    forall i, j :: 0 <= i < j < |ids| ==> ids[i] != ids[j]
  }

  /** An account of the wanted provider, among the candidates from the k-th on. */
  ghost predicate IsCandidate(ordered: seq<string>, replies: seq<Reply>, k: nat, wanted: Kind, account: string)
    requires |replies| == |ordered|
  {
    exists j :: k <= j < |ordered| && ordered[j] == account && replies[j].kind == Some(wanted)
  }

  /** What the rest of a run does, from a candidate on. */
  ghost predicate RunKeeps(ordered: seq<string>, replies: seq<Reply>, k: nat, wanted: Kind, streaming: bool, o: Outcome)
    requires |replies| == |ordered|
  {
    && (forall i :: 0 <= i < |o.actions| ==> IsCandidate(ordered, replies, k, wanted, o.actions[i].account))
    && (forall account ::
          && Count(o.actions, Generations, account) <= 1 + Count(o.actions, Renewals, account)
          && Count(o.actions, Renewals, account) <= 1
          && Count(o.actions, Records, account) <= 1
          && Count(o.actions, Successes, account)
             == (if !streaming && o.answer.Served? && o.answer.account == account then 1 else 0)
          && Count(o.actions, Opened, account)
             == Count(o.actions, Closed, account)
                + if streaming && o.answer.Served? && o.answer.account == account then 1 else 0)
    && (o.answer.Served? ==> Count(o.actions, Records, o.answer.account) == if streaming then 0 else 1)
    && (o.answer.Served? ==> IsCandidate(ordered, replies, k, wanted, o.answer.account))
  }

  lemma CountsApart(xs: seq<Action>, ys: seq<Action>, account: string)
    requires (forall i :: 0 <= i < |xs| ==> xs[i].account != account)
             || (forall i :: 0 <= i < |ys| ==> ys[i].account != account)
    ensures forall what :: Count(xs + ys, what, account) == Count(xs, what, account) + Count(ys, what, account)
    ensures forall what :: Count(xs, what, account) == 0 || Count(ys, what, account) == 0
  {
    forall what ensures Count(xs + ys, what, account) == Count(xs, what, account) + Count(ys, what, account)
                        && (Count(xs, what, account) == 0 || Count(ys, what, account) == 0) {
      CountAppend(xs, ys, what, account);
      if forall i :: 0 <= i < |xs| ==> xs[i].account != account {
        CountNone(xs, what, account);
      } else {
        CountNone(ys, what, account);
      }
    }
  }

  /** The actions of a turn and of the turns after it concern different accounts. */
  lemma NextTurns(ordered: seq<string>, replies: seq<Reply>, k: nat, wanted: Kind, streaming: bool, turn: Turn,
        rest: Outcome)
    requires |replies| == |ordered| && k < |ordered| && Unique(ordered)
    requires TurnKeeps(turn, ordered[k], wanted, replies[k], streaming) && !turn.verdict.Stop?
    requires RunKeeps(ordered, replies, k + 1, wanted, streaming, rest)
    ensures RunKeeps(ordered, replies, k, wanted, streaming, Prefixed(turn.actions, rest))
  {
    hide Count;
    var xs, ys := turn.actions, rest.actions;
    forall account
      ensures Count(xs + ys, Generations, account) <= 1 + Count(xs + ys, Renewals, account)
              && Count(xs + ys, Renewals, account) <= 1
              && Count(xs + ys, Records, account) <= 1
              && Count(xs + ys, Successes, account) == Count(ys, Successes, account)
              && Count(xs + ys, Opened, account) - Count(xs + ys, Closed, account)
                 == Count(ys, Opened, account) - Count(ys, Closed, account)
              && (account != ordered[k] ==> Count(xs + ys, Records, account) == Count(ys, Records, account))
    {
      if account == ordered[k] {
        forall i | 0 <= i < |ys| ensures ys[i].account != account {}
        CountsApart(xs, ys, account);
        CountNone(ys, Generations, account);
        CountNone(ys, Renewals, account);
        CountNone(ys, Records, account);
        CountNone(ys, Successes, account);
        CountNone(ys, Opened, account);
        CountNone(ys, Closed, account);
      } else {
        CountsApart(xs, ys, account);
        CountNone(xs, Generations, account);
        CountNone(xs, Renewals, account);
        CountNone(xs, Records, account);
        CountNone(xs, Successes, account);
        CountNone(xs, Opened, account);
        CountNone(xs, Closed, account);
      }
    }
    forall i | 0 <= i < |xs + ys| ensures IsCandidate(ordered, replies, k, wanted, (xs + ys)[i].account) {
      if i < |xs| {
        assert ordered[k] == (xs + ys)[i].account && replies[k].kind == Some(wanted);
      } else {
        assert (xs + ys)[i] == ys[i - |xs|];
        assert IsCandidate(ordered, replies, k + 1, wanted, ys[i - |xs|].account);
      }
    }
  }

  lemma LastTurn(ordered: seq<string>, replies: seq<Reply>, k: nat, wanted: Kind, streaming: bool, turn: Turn)
    requires |replies| == |ordered| && k < |ordered|
    requires TurnKeeps(turn, ordered[k], wanted, replies[k], streaming) && turn.verdict.Stop?
    ensures RunKeeps(ordered, replies, k, wanted, streaming, Outcome(turn.actions, turn.verdict.answer))
  {
    hide Count;
    var xs := turn.actions;
    forall account | account != ordered[k]
      ensures Count(xs, Generations, account) == Count(xs, Renewals, account) == Count(xs, Records, account)
           == Count(xs, Successes, account) == Count(xs, Opened, account) == Count(xs, Closed, account) == 0
    {
      CountNone(xs, Generations, account);
      CountNone(xs, Renewals, account);
      CountNone(xs, Records, account);
      CountNone(xs, Successes, account);
      CountNone(xs, Opened, account);
      CountNone(xs, Closed, account);
    }
  }

  lemma {:induction false} LoopKeeps(ordered: seq<string>, replies: seq<Reply>, k: nat, wanted: Kind,
        last: Option<Classification>, streaming: bool)
    requires |replies| == |ordered| && k <= |ordered| && Unique(ordered)
    ensures RunKeeps(ordered, replies, k, wanted, streaming, Loop(ordered, replies, k, wanted, last, streaming))
    decreases |ordered| - k
  {
    hide RunKeeps, TurnKeeps, Attempt, Unique;
    if k == |ordered| {
      NoTurns(ordered, replies, wanted, streaming, Loop(ordered, replies, k, wanted, last, streaming));
    } else {
      var turn := Attempt(ordered[k], wanted, replies[k], streaming);
      AttemptKeeps(ordered[k], wanted, replies[k], streaming);
      match turn.verdict {
        case Stop(_) => LastTurn(ordered, replies, k, wanted, streaming, turn);
        case Skip =>
          LoopKeeps(ordered, replies, k + 1, wanted, last, streaming);
          NextTurns(ordered, replies, k, wanted, streaming, turn,
                    Loop(ordered, replies, k + 1, wanted, last, streaming));
        case Continue(c) =>
          LoopKeeps(ordered, replies, k + 1, wanted, Some(c), streaming);
          NextTurns(ordered, replies, k, wanted, streaming, turn,
                    Loop(ordered, replies, k + 1, wanted, Some(c), streaming));
      }
    }
  }

  lemma NoTurns(ordered: seq<string>, replies: seq<Reply>, wanted: Kind, streaming: bool, o: Outcome)
    requires |replies| == |ordered| && o.actions == [] && !o.answer.Served?
    ensures RunKeeps(ordered, replies, |ordered|, wanted, streaming, o)
  {
    forall account, what ensures Count(o.actions, what, account) == 0 {}
  }

  /**
   For every request and whatever the candidates meet: only accounts of the wanted provider are used, none is asked
   to generate more than twice or without renewed credentials the second time, and each attempted account gets at
   most one usage record, a success only when it serves the answer; an opened stream has none yet.
   */
  lemma FailoverIsSafe(ordered: seq<string>, replies: seq<Reply>, wanted: Kind, streaming: bool)
    requires |replies| == |ordered| && Unique(ordered)
    ensures var o := Loop(ordered, replies, 0, wanted, None, streaming);
            && (forall i :: 0 <= i < |o.actions| ==> IsCandidate(ordered, replies, 0, wanted, o.actions[i].account))
            && (forall account ::
                 Count(o.actions, Generations, account) <= 1 + Count(o.actions, Renewals, account) <= 2)
            && (forall account :: Count(o.actions, Records, account) <= 1)
            && (forall account ::
                  Count(o.actions, Successes, account)
                  == if !streaming && o.answer.Served? && o.answer.account == account then 1 else 0)
            && (o.answer.Served? ==> Count(o.actions, Records, o.answer.account) == if streaming then 0 else 1)
  {
    hide Loop, Count;
    LoopKeeps(ordered, replies, 0, wanted, None, streaming);
  }

  /** Every stream that is opened is closed again, but for the one that serves the answer. */
  lemma StreamsClosed(ordered: seq<string>, replies: seq<Reply>, wanted: Kind, streaming: bool, account: string)
    requires |replies| == |ordered| && Unique(ordered)
    ensures var o := Loop(ordered, replies, 0, wanted, None, streaming);
            var served := streaming && o.answer.Served? && o.answer.account == account;
            Count(o.actions, Opened, account) == Count(o.actions, Closed, account) + if served then 1 else 0
  {
    hide Loop, Count;
    LoopKeeps(ordered, replies, 0, wanted, None, streaming);
  }
}
