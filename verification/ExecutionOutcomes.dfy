/**
 What a run over the candidates comes to, told on their replies alone: who
 serves, which failure is the answer, and whom the run asks, renews and blames.
 */
module ExecutionOutcomes {
  import opened Basics
  import opened Provider
  import opened CooldownSteps
  import opened ExecutionSteps

  // ----- One candidate -----

  /** An account of the wanted provider that has a credential. */
  predicate IsAsked(r: Reply, wanted: Kind) {
    r.kind == Some(wanted) && r.credential.None?
  }

  /** Its first generation fails in a way that renewing the credential may cure. */
  predicate IsRenewed(r: Reply, wanted: Kind) {
    IsAsked(r, wanted) && r.first.Err? && r.first.error.upstream && r.first.error.c.refreshSame
  }

  /** It is asked again, with the renewed credential. */
  predicate IsAskedAgain(r: Reply, wanted: Kind) {
    IsRenewed(r, wanted) && r.recovery == Recovered
  }

  /** What a candidate generates: at once, or after a renewal. */
  predicate Generates(r: Reply, wanted: Kind, events: Events) {
    || (IsAsked(r, wanted) && r.first == Ok(events))
    || (IsAskedAgain(r, wanted) && r.second == Ok(events))
  }

  /** The failure a candidate ends with. */
  predicate FailsWith(r: Reply, wanted: Kind, c: Classification) {
    || (r.kind == Some(wanted) && r.credential == Some(c))
    || (IsAsked(r, wanted) && !IsRenewed(r, wanted) && r.first.Err? && c == r.first.error.c)
    || (IsRenewed(r, wanted) && r.recovery == NotRecovered(Some(c)))
    || (IsRenewed(r, wanted) && r.recovery == NotRecovered(None) && c == r.first.error.c)
    || (IsAskedAgain(r, wanted) && r.second.Err? && c == r.second.error.c)
  }

  predicate IsForeign(r: Reply, wanted: Kind) {
    r.kind.Some? && r.kind.value != wanted
  }

  /** A failure that lets the next candidate try. */
  predicate PassesOn(r: Reply, wanted: Kind, c: Classification) {
    FailsWith(r, wanted, c) && c.retryNext && r.stored != StoreFailed
  }

  ghost predicate GoesOn(r: Reply, wanted: Kind) {
    IsForeign(r, wanted) || exists c :: PassesOn(r, wanted, c)
  }

  /** A failure as it is answered: with the time at which its cooldown ends, when there is one. */
  predicate AnsweredAs(answer: Classification, c: Classification, stored: Stored) {
    match stored
    case CoolingUntil(until, remaining) => answer == c.(retryAfter := Some(until), cooldown := remaining)
    case _ => answer == c
  }

  /** How the candidate that stops the run answers. */
  ghost predicate AnswersAt(answer: Answer, account: string, r: Reply, wanted: Kind, streaming: bool) {
    match answer
    case Served(a, events) => a == account && Generates(r, wanted, events) && (streaming || r.cleared)
    case Failed(c) =>
      exists f :: FailsWith(r, wanted, f) && !f.retryNext && r.stored != StoreFailed && AnsweredAs(c, f, r.stored)
    case Broken => BreaksAt(r, wanted, streaming)
    case NoneAvailable => false
  }

  /** The account is unknown, or storing what came of it fails. */
  ghost predicate BreaksAt(r: Reply, wanted: Kind, streaming: bool) {
    || r.kind.None?
    || (!streaming && !r.cleared && exists events :: Generates(r, wanted, events))
    || (r.stored == StoreFailed && exists f :: FailsWith(r, wanted, f))
  }

  /** The candidates before j pass the request on. */
  ghost predicate Reached(replies: seq<Reply>, j: nat, wanted: Kind) {
    j <= |replies| && forall i :: 0 <= i < j ==> GoesOn(replies[i], wanted)
  }

  /** The last failure of a run that nobody stops: later candidates are all foreign. */
  ghost predicate LastFailed(replies: seq<Reply>, j: nat, wanted: Kind, c: Classification) {
    && j < |replies| && (exists f :: FailsWith(replies[j], wanted, f) && AnsweredAs(c, f, replies[j].stored))
    && forall i :: j < i < |replies| ==> IsForeign(replies[i], wanted)
  }

  lemma OneFailure(r: Reply, wanted: Kind, c: Classification, d: Classification)
    requires FailsWith(r, wanted, c) && FailsWith(r, wanted, d)
    ensures c == d
  {
  }

  ghost predicate VerdictSays(v: Verdict, account: string, r: Reply, wanted: Kind, streaming: bool) {
    match v
    case Skip => IsForeign(r, wanted)
    case Continue(c) => exists f :: PassesOn(r, wanted, f) && AnsweredAs(c, f, r.stored)
    case Stop(answer) => !GoesOn(r, wanted) && AnswersAt(answer, account, r, wanted, streaming)
  }

  lemma GiveUpSays(account: string, actions: seq<Action>, c: Classification, r: Reply, wanted: Kind, streaming: bool)
    requires FailsWith(r, wanted, c)
    ensures VerdictSays(GiveUp(account, actions, c, r.stored).verdict, account, r, wanted, streaming)
  {
    assert !IsForeign(r, wanted);
    var answered := if !r.stored.CoolingUntil? then c
                    else c.(retryAfter := Some(r.stored.until), cooldown := r.stored.remaining);
    assert AnsweredAs(answered, c, r.stored);
    if r.stored != StoreFailed && c.retryNext {
      assert PassesOn(r, wanted, c);
    } else {
      forall d ensures !PassesOn(r, wanted, d) {
        if PassesOn(r, wanted, d) { OneFailure(r, wanted, c, d); }
      }
    }
    hide FailsWith;
  }

  lemma ServeSays(account: string, actions: seq<Action>, events: Events, r: Reply, wanted: Kind, streaming: bool)
    requires Generates(r, wanted, events)
    ensures VerdictSays(Serve(account, actions, events, r.cleared, streaming).verdict, account, r, wanted, streaming)
  {
    assert !IsForeign(r, wanted);
    forall d ensures !PassesOn(r, wanted, d) {}
    hide FailsWith;
  }

  /** How a turn ends is what the reply says. */
  lemma AttemptSays(account: string, wanted: Kind, r: Reply, streaming: bool)
    ensures VerdictSays(Attempt(account, wanted, r, streaming).verdict, account, r, wanted, streaming)
  {
    hide VerdictSays, GiveUp, Serve, Generated;
    if r.kind != Some(wanted) {
      PassedOver(account, r, wanted, streaming);
    } else if r.credential.Some? {
      GiveUpSays(account, [], r.credential.value, r, wanted, streaming);
    } else {
      var once := Generated(account, r.first, streaming);
      if r.first.Ok? {
        ServeSays(account, once, r.first.value, r, wanted, streaming);
      } else if !r.first.error.c.refreshSame || !r.first.error.upstream {
        GiveUpSays(account, once, r.first.error.c, r, wanted, streaming);
      } else if r.recovery.NotRecovered? {
        var c := if r.recovery.typed.Some? then r.recovery.typed.value else r.first.error.c;
        GiveUpSays(account, once + [Recover(account)], c, r, wanted, streaming);
      } else {
        var twice := once + [Recover(account)] + Generated(account, r.second, streaming);
        if r.second.Ok? {
          ServeSays(account, twice, r.second.value, r, wanted, streaming);
        } else {
          GiveUpSays(account, twice, r.second.error.c, r, wanted, streaming);
        }
      }
    }
  }

  lemma PassedOver(account: string, r: Reply, wanted: Kind, streaming: bool)
    requires r.kind != Some(wanted)
    ensures r.kind.None? ==> VerdictSays(Stop(Broken), account, r, wanted, streaming)
    ensures r.kind.Some? ==> VerdictSays(Skip, account, r, wanted, streaming)
  {
    forall d ensures !PassesOn(r, wanted, d) {}
  }

  // ----- The run -----

  ghost predicate AllGoOn(replies: seq<Reply>, k: nat, wanted: Kind) {
    forall i :: k <= i < |replies| ==> GoesOn(replies[i], wanted)
  }

  /** From the k-th candidate on, the j-th is the first that stops the run. */
  ghost predicate StopsFrom(replies: seq<Reply>, k: nat, j: nat, wanted: Kind) {
    k <= j < |replies| && (forall i :: k <= i < j ==> GoesOn(replies[i], wanted)) && !GoesOn(replies[j], wanted)
  }

  ghost predicate EndsWith(answer: Answer, replies: seq<Reply>, k: nat, wanted: Kind, last: Option<Classification>) {
    && (forall j: nat, c :: k <= j && LastFailed(replies, j, wanted, c) ==> answer == Failed(c))
    && ((forall i :: k <= i < |replies| ==> IsForeign(replies[i], wanted)) ==>
         answer == if last.Some? then Failed(last.value) else NoneAvailable)
  }

  lemma OneLastFailure(replies: seq<Reply>, wanted: Kind, j: nat, c: Classification, d: Classification)
    requires LastFailed(replies, j, wanted, c) && LastFailed(replies, j, wanted, d)
    ensures c == d
  {
    hide FailsWith;
    var f :| FailsWith(replies[j], wanted, f) && AnsweredAs(c, f, replies[j].stored);
    var g :| FailsWith(replies[j], wanted, g) && AnsweredAs(d, g, replies[j].stored);
    OneFailure(replies[j], wanted, f, g);
  }

  lemma ForeignNeverFails(r: Reply, wanted: Kind, c: Classification)
    requires IsForeign(r, wanted)
    ensures !FailsWith(r, wanted, c)
  {
  }

  lemma {:induction false} LoopSays(ordered: seq<string>, replies: seq<Reply>, k: nat, wanted: Kind,
        last: Option<Classification>, streaming: bool)
    requires |replies| == |ordered| && k <= |ordered|
    ensures var answer := Loop(ordered, replies, k, wanted, last, streaming).answer;
            && (forall j: nat :: StopsFrom(replies, k, j, wanted) ==>
                 AnswersAt(answer, ordered[j], replies[j], wanted, streaming))
            && (AllGoOn(replies, k, wanted) ==> EndsWith(answer, replies, k, wanted, last))
    decreases |ordered| - k
  {
    hide AnswersAt, GoesOn, Attempt, IsForeign, FailsWith, AnsweredAs;
    if k == |ordered| {
    } else {
      AttemptSays(ordered[k], wanted, replies[k], streaming);
      var turn := Attempt(ordered[k], wanted, replies[k], streaming);
      match turn.verdict {
        case Stop(_) =>
        case Skip =>
          LoopSays(ordered, replies, k + 1, wanted, last, streaming);
          SkipSays(replies, k, wanted);
          SkipEnds(Loop(ordered, replies, k + 1, wanted, last, streaming).answer, replies, k, wanted, last);
        case Continue(c) =>
          LoopSays(ordered, replies, k + 1, wanted, Some(c), streaming);
          ContinueSays(replies, k, wanted, c);
          ContinueEnds(Loop(ordered, replies, k + 1, wanted, Some(c), streaming).answer, replies, k, wanted, c, last);
      }
    }
  }

  lemma SkipSays(replies: seq<Reply>, k: nat, wanted: Kind)
    requires k < |replies| && IsForeign(replies[k], wanted)
    ensures GoesOn(replies[k], wanted)
    ensures forall c :: !LastFailed(replies, k, wanted, c)
  {
    forall c ensures !FailsWith(replies[k], wanted, c) { ForeignNeverFails(replies[k], wanted, c); }
    hide FailsWith;
  }

  lemma SkipEnds(answer: Answer, replies: seq<Reply>, k: nat, wanted: Kind, last: Option<Classification>)
    requires k < |replies| && IsForeign(replies[k], wanted) && forall c :: !LastFailed(replies, k, wanted, c)
    requires AllGoOn(replies, k + 1, wanted) ==> EndsWith(answer, replies, k + 1, wanted, last)
    ensures AllGoOn(replies, k, wanted) ==> EndsWith(answer, replies, k, wanted, last)
  {
    hide LastFailed, GoesOn, IsForeign;
  }

  lemma ContinueSays(replies: seq<Reply>, k: nat, wanted: Kind, c: Classification)
    requires k < |replies| && exists f :: PassesOn(replies[k], wanted, f) && AnsweredAs(c, f, replies[k].stored)
    ensures GoesOn(replies[k], wanted) && !IsForeign(replies[k], wanted)
    ensures exists f :: FailsWith(replies[k], wanted, f) && AnsweredAs(c, f, replies[k].stored)
  {
  }

  lemma ContinueEnds(answer: Answer, replies: seq<Reply>, k: nat, wanted: Kind, c: Classification,
        last: Option<Classification>)
    requires k < |replies| && !IsForeign(replies[k], wanted)
    requires exists f :: FailsWith(replies[k], wanted, f) && AnsweredAs(c, f, replies[k].stored)
    requires AllGoOn(replies, k + 1, wanted) ==> EndsWith(answer, replies, k + 1, wanted, Some(c))
    ensures AllGoOn(replies, k, wanted) ==> EndsWith(answer, replies, k, wanted, last)
  {
    hide GoesOn, IsForeign, FailsWith, AnsweredAs;
    if AllGoOn(replies, k, wanted) {
      forall j: nat, d | k <= j && LastFailed(replies, j, wanted, d) ensures answer == Failed(d) {
        if j == k {
          assert LastFailed(replies, k, wanted, c);
          OneLastFailure(replies, wanted, k, c, d);
        }
      }
    }
  }

  lemma FindStop(replies: seq<Reply>, k: nat, wanted: Kind) returns (j: nat)
    requires k <= |replies| && !AllGoOn(replies, k, wanted)
    ensures StopsFrom(replies, k, j, wanted)
    decreases |replies| - k
  {
    hide GoesOn;
    if GoesOn(replies[k], wanted) { j := FindStop(replies, k + 1, wanted); } else { j := k; }
  }

  /** When nobody stops the run, everybody is foreign or somebody has failed last. */
  lemma {:induction false} FindLast(replies: seq<Reply>, n: nat, wanted: Kind)
    returns (j: nat, c: Option<Classification>)
    requires n <= |replies| && AllGoOn(replies, 0, wanted)
    requires forall i :: n <= i < |replies| ==> IsForeign(replies[i], wanted)
    ensures c.None? ==> forall i :: 0 <= i < |replies| ==> IsForeign(replies[i], wanted)
    ensures c.Some? ==> LastFailed(replies, j, wanted, c.value)
  {
    hide IsForeign, FailsWith;
    if n == 0 {
      j, c := 0, None;
    } else if IsForeign(replies[n - 1], wanted) {
      j, c := FindLast(replies, n - 1, wanted);
    } else {
      j := n - 1;
      assert GoesOn(replies[j], wanted);
      var f :| PassesOn(replies[j], wanted, f);
      var answered := if replies[j].stored.CoolingUntil?
                      then f.(retryAfter := Some(replies[j].stored.until), cooldown := replies[j].stored.remaining)
                      else f;
      assert AnsweredAs(answered, f, replies[j].stored);
      c := Some(answered);
    }
  }

  lemma OneGeneration(r: Reply, wanted: Kind, events: Events)
    requires Generates(r, wanted, events)
    ensures forall other :: Generates(r, wanted, other) ==> other == events
    ensures forall c :: !FailsWith(r, wanted, c)
    ensures !GoesOn(r, wanted)
  {
  }

  lemma OneAnswer(a: Answer, b: Answer, account: string, r: Reply, wanted: Kind, streaming: bool)
    requires AnswersAt(a, account, r, wanted, streaming) && AnswersAt(b, account, r, wanted, streaming)
    ensures a == b
  {
    forall events | Generates(r, wanted, events)
      ensures (forall other :: Generates(r, wanted, other) ==> other == events) && forall c :: !FailsWith(r, wanted, c)
    {
      OneGeneration(r, wanted, events);
    }
    forall c, d | FailsWith(r, wanted, c) && FailsWith(r, wanted, d) ensures c == d { OneFailure(r, wanted, c, d); }
    assert r.kind.None? ==> forall c :: !FailsWith(r, wanted, c);
    assert r.kind.None? ==> forall events :: !Generates(r, wanted, events);
    hide FailsWith, Generates;
  }

  // ----- Main result -----

  /** The answers a run can come to, and when. */
  ghost predicate ComesTo(answer: Answer, ordered: seq<string>, replies: seq<Reply>, wanted: Kind, streaming: bool)
    requires |replies| == |ordered|
  {
    match answer
    case Served(account, events) =>
      exists j: nat :: j < |ordered| && Reached(replies, j, wanted) && ordered[j] == account
                       && Generates(replies[j], wanted, events) && (streaming || replies[j].cleared)
    case Failed(c) =>
      || (exists j: nat, f :: j < |ordered| && Reached(replies, j, wanted) && FailsWith(replies[j], wanted, f)
           && !f.retryNext && replies[j].stored != StoreFailed && AnsweredAs(c, f, replies[j].stored))
      || (Reached(replies, |replies|, wanted) && exists j: nat :: LastFailed(replies, j, wanted, c))
    case Broken =>
      exists j: nat :: j < |ordered| && Reached(replies, j, wanted) && BreaksAt(replies[j], wanted, streaming)
    case NoneAvailable => forall i :: 0 <= i < |replies| ==> IsForeign(replies[i], wanted)
  }

  lemma StoppedComesTo(answer: Answer, ordered: seq<string>, replies: seq<Reply>, j: nat, wanted: Kind,
        streaming: bool)
    requires |replies| == |ordered| && StopsFrom(replies, 0, j, wanted)
    requires AnswersAt(answer, ordered[j], replies[j], wanted, streaming)
    ensures ComesTo(answer, ordered, replies, wanted, streaming)
  {
    hide FailsWith, Generates, GoesOn, AnsweredAs;
    assert Reached(replies, j, wanted);
  }

  lemma EndedComesTo(answer: Answer, ordered: seq<string>, replies: seq<Reply>, wanted: Kind, streaming: bool)
    requires |replies| == |ordered| && AllGoOn(replies, 0, wanted) && EndsWith(answer, replies, 0, wanted, None)
    ensures ComesTo(answer, ordered, replies, wanted, streaming)
  {
    hide FailsWith, Generates, GoesOn, AnsweredAs, IsForeign, LastFailed;
    var j, c := FindLast(replies, |replies|, wanted);
    assert Reached(replies, |replies|, wanted);
  }

  /** Whatever a run comes to, it comes to nothing else. */
  lemma OnlyThere(answer: Answer, other: Answer, ordered: seq<string>, replies: seq<Reply>, wanted: Kind,
        streaming: bool)
    requires |replies| == |ordered| && ComesTo(other, ordered, replies, wanted, streaming)
    requires forall j: nat :: StopsFrom(replies, 0, j, wanted) ==>
               AnswersAt(answer, ordered[j], replies[j], wanted, streaming)
    requires AllGoOn(replies, 0, wanted) ==> EndsWith(answer, replies, 0, wanted, None)
    ensures answer == other
  {
    match other {
      case Served(account, events) =>
        var j: nat :| j < |ordered| && Reached(replies, j, wanted) && ordered[j] == account
                      && Generates(replies[j], wanted, events) && (streaming || replies[j].cleared);
        OneGeneration(replies[j], wanted, events);
        OneAnswer(answer, other, ordered[j], replies[j], wanted, streaming);
      case Failed(c) => OnlyThatFailure(answer, c, ordered, replies, wanted, streaming);
      case Broken =>
        var j: nat :| j < |ordered| && Reached(replies, j, wanted) && BreaksAt(replies[j], wanted, streaming);
        BreakStops(replies[j], wanted, streaming);
        OneAnswer(answer, other, ordered[j], replies[j], wanted, streaming);
      case NoneAvailable =>
    }
  }

  lemma BreakStops(r: Reply, wanted: Kind, streaming: bool)
    requires BreaksAt(r, wanted, streaming)
    ensures !GoesOn(r, wanted)
  {
  }

  lemma FailureStops(r: Reply, wanted: Kind, f: Classification)
    requires FailsWith(r, wanted, f) && !f.retryNext
    ensures !GoesOn(r, wanted)
  {
    forall c ensures !PassesOn(r, wanted, c) {
      if PassesOn(r, wanted, c) { OneFailure(r, wanted, c, f); }
    }
  }

  lemma OnlyThatFailure(answer: Answer, c: Classification, ordered: seq<string>, replies: seq<Reply>, wanted: Kind,
        streaming: bool)
    requires |replies| == |ordered| && ComesTo(Failed(c), ordered, replies, wanted, streaming)
    requires forall j: nat :: StopsFrom(replies, 0, j, wanted) ==>
               AnswersAt(answer, ordered[j], replies[j], wanted, streaming)
    requires AllGoOn(replies, 0, wanted) ==> EndsWith(answer, replies, 0, wanted, None)
    ensures answer == Failed(c)
  {
    hide FailsWith, Generates, GoesOn, AnsweredAs, IsForeign;
    if j: nat, f :| j < |ordered| && Reached(replies, j, wanted) && FailsWith(replies[j], wanted, f)
                    && !f.retryNext && replies[j].stored != StoreFailed && AnsweredAs(c, f, replies[j].stored) {
      FailureStops(replies[j], wanted, f);
      assert StopsFrom(replies, 0, j, wanted);
      OneAnswer(answer, Failed(c), ordered[j], replies[j], wanted, streaming);
    }
  }

  /**
   The answer of a run is exactly what its replies come to: it is served by the first candidate that generates, if
   everybody before is foreign or lets the next one try; it fails with the first failure that does not, or with the last
   one; it breaks where the stores do; and nobody is available when all are foreign.
   */
  lemma AnswerExactly(ordered: seq<string>, replies: seq<Reply>, wanted: Kind, streaming: bool, answer: Answer)
    requires |replies| == |ordered|
    ensures Loop(ordered, replies, 0, wanted, None, streaming).answer == answer
       <==> ComesTo(answer, ordered, replies, wanted, streaming)
  {
    hide Loop, ComesTo, AnswersAt, GoesOn, EndsWith;
    LoopSays(ordered, replies, 0, wanted, None, streaming);
    var given := Loop(ordered, replies, 0, wanted, None, streaming).answer;
    if AllGoOn(replies, 0, wanted) {
      EndedComesTo(given, ordered, replies, wanted, streaming);
    } else {
      var j := FindStop(replies, 0, wanted);
      StoppedComesTo(given, ordered, replies, j, wanted, streaming);
    }
    if ComesTo(answer, ordered, replies, wanted, streaming) {
      OnlyThere(given, answer, ordered, replies, wanted, streaming);
    }
  }

  // ----- What is done on the way -----

  /** A stream has been opened, whether or not its first event came. */
  predicate Opens(outcome: Result<Events, Failure>) {
    outcome.Ok? || outcome.error.streamed
  }

  predicate OpensInVain(outcome: Result<Events, Failure>) {
    outcome.Err? && outcome.error.streamed
  }

  /** What is done for one candidate. */
  ghost predicate IsDone(a: Action, account: string, r: Reply, wanted: Kind, streaming: bool) {
    a.account == account &&
    match a
    case Generate(_) => IsAsked(r, wanted)
    case Open(_) =>
      streaming && ((IsAsked(r, wanted) && Opens(r.first)) || (IsAskedAgain(r, wanted) && Opens(r.second)))
    case Close(_) =>
      streaming && ((IsAsked(r, wanted) && OpensInVain(r.first)) || (IsAskedAgain(r, wanted) && OpensInVain(r.second)))
    case Recover(_) => IsRenewed(r, wanted)
    case Record(_, failed) =>
      if failed then exists c :: FailsWith(r, wanted, c)
      else !streaming && r.cleared && exists events :: Generates(r, wanted, events)
    case Clear(_) => !streaming && exists events :: Generates(r, wanted, events)
    case Blame(_, c) => FailsWith(r, wanted, c)
  }

  predicate IsEarly(a: Action) {
    a.Generate? || a.Open? || a.Close? || a.Recover?
  }

  /** A candidate that fails is recorded as failing and blamed, and no more. */
  lemma FailureDone(account: string, actions: seq<Action>, c: Classification, r: Reply, wanted: Kind, streaming: bool,
        a: Action)
    requires FailsWith(r, wanted, c)
    requires forall i :: 0 <= i < |actions| ==> IsEarly(actions[i])
    requires IsEarly(a) ==> (a in actions <==> IsDone(a, account, r, wanted, streaming))
    ensures a in GiveUp(account, actions, c, r.stored).actions <==> IsDone(a, account, r, wanted, streaming)
  {
    forall events ensures !Generates(r, wanted, events) {
      if Generates(r, wanted, events) { OneGeneration(r, wanted, events); }
    }
    forall d | FailsWith(r, wanted, d) ensures d == c { OneFailure(r, wanted, c, d); }
    hide FailsWith, Generates, IsAsked, IsRenewed, IsAskedAgain;
  }

  /** One that generates is cleared and recorded as serving, unless it streams. */
  lemma ServiceDone(account: string, actions: seq<Action>, events: Events, r: Reply, wanted: Kind, streaming: bool,
        a: Action)
    requires Generates(r, wanted, events)
    requires forall i :: 0 <= i < |actions| ==> IsEarly(actions[i])
    requires IsEarly(a) ==> (a in actions <==> IsDone(a, account, r, wanted, streaming))
    ensures a in Serve(account, actions, events, r.cleared, streaming).actions
       <==> IsDone(a, account, r, wanted, streaming)
  {
    OneGeneration(r, wanted, events);
    hide FailsWith, Generates, IsAsked, IsRenewed, IsAskedAgain;
  }

  lemma GeneratedDoes(account: string, outcome: Result<Events, Failure>, streaming: bool, a: Action)
    ensures var done := Generated(account, outcome, streaming);
            && (forall i :: 0 <= i < |done| ==> IsEarly(done[i]) && !done[i].Recover? && done[i].account == account)
            && (a in done <==>
                 || a == Generate(account)
                 || (a == Open(account) && streaming && Opens(outcome))
                 || (a == Close(account) && streaming && OpensInVain(outcome)))
  {
  }

  lemma AttemptDoes(account: string, wanted: Kind, r: Reply, streaming: bool, a: Action)
    ensures a in Attempt(account, wanted, r, streaming).actions <==> IsDone(a, account, r, wanted, streaming)
  {
    hide GiveUp, Serve, Generated;
    if r.kind != Some(wanted) {
    } else if r.credential.Some? {
      FailureDone(account, [], r.credential.value, r, wanted, streaming, a);
    } else {
      var once := Generated(account, r.first, streaming);
      GeneratedDoes(account, r.first, streaming, a);
      if r.first.Ok? {
        ServiceDone(account, once, r.first.value, r, wanted, streaming, a);
      } else if !r.first.error.c.refreshSame || !r.first.error.upstream {
        FailureDone(account, once, r.first.error.c, r, wanted, streaming, a);
      } else {
        RenewedDoes(account, wanted, r, streaming, a);
      }
    }
  }

  lemma RenewedDoes(account: string, wanted: Kind, r: Reply, streaming: bool, a: Action)
    requires IsRenewed(r, wanted)
    ensures a in Attempt(account, wanted, r, streaming).actions <==> IsDone(a, account, r, wanted, streaming)
  {
    hide GiveUp, Serve, Generated;
    var once := Generated(account, r.first, streaming);
    GeneratedDoes(account, r.first, streaming, a);
    if r.recovery.NotRecovered? {
      var c := if r.recovery.typed.Some? then r.recovery.typed.value else r.first.error.c;
      FailureDone(account, once + [Recover(account)], c, r, wanted, streaming, a);
    } else {
      GeneratedDoes(account, r.second, streaming, a);
      var twice := once + [Recover(account)] + Generated(account, r.second, streaming);
      if r.second.Ok? {
        ServiceDone(account, twice, r.second.value, r, wanted, streaming, a);
      } else {
        FailureDone(account, twice, r.second.error.c, r, wanted, streaming, a);
      }
    }
  }

  /** From the k-th candidate on, the j-th gets its turn. */
  ghost predicate ReachedFrom(replies: seq<Reply>, k: nat, j: nat, wanted: Kind) {
    k <= j < |replies| && forall i :: k <= i < j ==> GoesOn(replies[i], wanted)
  }

  ghost predicate DoneFrom(a: Action, ordered: seq<string>, replies: seq<Reply>, k: nat, wanted: Kind, streaming: bool)
    requires |replies| == |ordered|
  {
    exists j: nat :: ReachedFrom(replies, k, j, wanted) && IsDone(a, ordered[j], replies[j], wanted, streaming)
  }

  lemma {:induction false} LoopDoes(ordered: seq<string>, replies: seq<Reply>, k: nat, wanted: Kind,
        last: Option<Classification>, streaming: bool, a: Action)
    requires |replies| == |ordered| && k <= |ordered|
    ensures a in Loop(ordered, replies, k, wanted, last, streaming).actions
       <==> DoneFrom(a, ordered, replies, k, wanted, streaming)
    decreases |ordered| - k
  {
    hide GoesOn, Attempt, IsDone, DoneFrom, VerdictSays;
    if k == |ordered| {
      NothingDone(a, ordered, replies, wanted, streaming);
    } else {
      AttemptSays(ordered[k], wanted, replies[k], streaming);
      AttemptDoes(ordered[k], wanted, replies[k], streaming, a);
      var turn := Attempt(ordered[k], wanted, replies[k], streaming);
      VerdictGoesOn(turn.verdict, ordered[k], replies[k], wanted, streaming);
      DoneMore(a, ordered, replies, k, wanted, streaming);
      match turn.verdict {
        case Stop(_) =>
        case Skip => LoopDoes(ordered, replies, k + 1, wanted, last, streaming, a);
        case Continue(c) => LoopDoes(ordered, replies, k + 1, wanted, Some(c), streaming, a);
      }
    }
  }

  lemma VerdictGoesOn(v: Verdict, account: string, r: Reply, wanted: Kind, streaming: bool)
    requires VerdictSays(v, account, r, wanted, streaming)
    ensures v.Stop? <==> !GoesOn(r, wanted)
  {
    hide AnswersAt;
  }

  lemma NothingDone(a: Action, ordered: seq<string>, replies: seq<Reply>, wanted: Kind, streaming: bool)
    requires |replies| == |ordered|
    ensures !DoneFrom(a, ordered, replies, |ordered|, wanted, streaming)
  {
  }

  lemma DoneMore(a: Action, ordered: seq<string>, replies: seq<Reply>, k: nat, wanted: Kind, streaming: bool)
    requires |replies| == |ordered| && k < |ordered|
    ensures DoneFrom(a, ordered, replies, k, wanted, streaming)
       <==> IsDone(a, ordered[k], replies[k], wanted, streaming)
            || (GoesOn(replies[k], wanted) && DoneFrom(a, ordered, replies, k + 1, wanted, streaming))
  {
    hide GoesOn, IsDone;
    if DoneFrom(a, ordered, replies, k, wanted, streaming) {
      var j: nat :| ReachedFrom(replies, k, j, wanted) && IsDone(a, ordered[j], replies[j], wanted, streaming);
      if j > k { assert ReachedFrom(replies, k + 1, j, wanted); }
    }
    if IsDone(a, ordered[k], replies[k], wanted, streaming) { assert ReachedFrom(replies, k, k, wanted); }
    if GoesOn(replies[k], wanted) && DoneFrom(a, ordered, replies, k + 1, wanted, streaming) {
      var j: nat :| ReachedFrom(replies, k + 1, j, wanted) && IsDone(a, ordered[j], replies[j], wanted, streaming);
      assert ReachedFrom(replies, k, j, wanted);
    }
  }

  /**
   And what a run does is exactly what is to be done for the candidates it reaches: asking, renewing, recording,
   clearing and blaming each for what its own reply says.
   */
  lemma ActionsExactly(ordered: seq<string>, replies: seq<Reply>, wanted: Kind, streaming: bool, a: Action)
    requires |replies| == |ordered|
    ensures a in Loop(ordered, replies, 0, wanted, None, streaming).actions
       <==> exists j: nat :: j < |ordered| && Reached(replies, j, wanted)
                             && IsDone(a, ordered[j], replies[j], wanted, streaming)
  {
    hide Loop, GoesOn, IsDone;
    LoopDoes(ordered, replies, 0, wanted, None, streaming, a);
    if DoneFrom(a, ordered, replies, 0, wanted, streaming) {
      var j: nat :| ReachedFrom(replies, 0, j, wanted) && IsDone(a, ordered[j], replies[j], wanted, streaming);
      assert Reached(replies, j, wanted);
    }
    if j: nat :| j < |ordered| && Reached(replies, j, wanted) && IsDone(a, ordered[j], replies[j], wanted, streaming) {
      assert ReachedFrom(replies, 0, j, wanted);
    }
  }
}
