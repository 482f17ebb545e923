/**
 What a routed stream records: the usage of the terminal event exactly when that
 event was handed over and a failure otherwise, and when the account is blamed.
 */
module RoutedStreamRecords {
  import opened Basics
  import opened RoutedStreamSteps

  /** No event that ends the stream has been handed over. */
  ghost predicate NoneEnds(source: seq<Event>, delivered: seq<nat>) {
    forall k :: 0 <= k < |delivered| ==> delivered[k] < |source| && source[delivered[k]].usage.None?
  }

  /** The last event handed over ended the stream with its usage, and no other did. */
  ghost predicate EndsWith(source: seq<Event>, delivered: seq<nat>, d: Delta) {
    delivered != [] &&
    var last := delivered[|delivered| - 1];
    last < |source| && source[last].usage == Some(d) && NoneEnds(source, delivered[..|delivered| - 1])
  }

  /** A call that has turned the stream terminal and still has to settle it. */
  predicate IsSettling(call: Call) {
    || call.Recording? || call.Finishing?
    || call.FailClosing? || call.FailRecording? || call.Blaming? || call.CloseRecording?
  }

  predicate Untouched(x: Shared) {
    !x.recordDone && x.records == [] && x.successes == 0 && x.blames == 0
  }

  /** The books, given the call that is settling the stream, if any. */
  ghost predicate Books(source: seq<Event>, x: Shared, settling: Option<Call>) {
    if !x.terminal then settling.None? && Untouched(x) && NoneEnds(source, x.delivered)
    else
      match settling
      case None =>
        && x.recordDone
        && ((x.records == [Delta(1, 1, 0, 0, 0)] && NoneEnds(source, x.delivered) && x.successes == 0 && x.blames <= 1)
            || (exists d :: x.records == [d] && EndsWith(source, x.delivered, d) && x.successes == 1 && x.blames == 0))
      case Some(Recording(_, d)) => Untouched(x) && EndsWith(source, x.delivered, d)
      case Some(Finishing(_)) =>
        && x.recordDone && x.successes == 0 && x.blames == 0
        && exists d :: x.records == [d] && EndsWith(source, x.delivered, d)
      case Some(Blaming) =>
        && x.recordDone && x.records == [Delta(1, 1, 0, 0, 0)] && NoneEnds(source, x.delivered)
        && x.successes == 0 && x.blames == 0
      case Some(call) =>
        (call.FailClosing? || call.FailRecording? || call.CloseRecording?) && Untouched(x)
        && NoneEnds(source, x.delivered)
  }

  lemma MoreDelivered(source: seq<Event>, delivered: seq<nat>, index: nat)
    requires NoneEnds(source, delivered) && index < |source|
    ensures source[index].usage.None? ==> NoneEnds(source, delivered + [index])
    ensures source[index].usage.Some? ==> EndsWith(source, delivered + [index], source[index].usage.value)
  {
    assert (delivered + [index])[..|delivered|] == delivered;
  }

  /** The call that settles after a step. */
  function SettlingAfter(settling: Option<Call>, call: Call, after: Call): Option<Call> {
    if IsSettling(after) then Some(after) else if IsSettling(call) then None else settling
  }

  /** A step of the settling call goes on settling or leaves the books settled; another call may begin to settle. */
  lemma StepBooks(source: seq<Event>, x: Shared, call: Call, c: Choice, settling: Option<Call>)
    requires Sound(source, x, call) && Books(source, x, settling)
    requires IsSettling(call) ==> settling == Some(call)
    ensures var moved := Step(source, x, call, c);
            && Books(source, moved.shared, SettlingAfter(settling, call, moved.call))
            && (IsSettling(moved.call) && !IsSettling(call) ==> settling.None?)
  {
    hide Books, Step;
    if IsSettling(call) { SettlingBooks(source, x, call, c); } else { PlainBooks(source, x, call, c, settling); }
  }

  lemma SettlingBooks(source: seq<Event>, x: Shared, call: Call, c: Choice)
    requires Sound(source, x, call) && IsSettling(call) && Books(source, x, Some(call))
    ensures var moved := Step(source, x, call, c);
            Books(source, moved.shared, SettlingAfter(Some(call), call, moved.call))
  {
    hide NoneEnds, EndsWith;
  }

  lemma PlainBooks(source: seq<Event>, x: Shared, call: Call, c: Choice, settling: Option<Call>)
    requires Sound(source, x, call) && !IsSettling(call) && Books(source, x, settling)
    ensures var moved := Step(source, x, call, c);
            && Books(source, moved.shared, SettlingAfter(settling, call, moved.call))
            && (IsSettling(moved.call) ==> settling.None?)
  {
    if x.terminal {
      EndedBooks(source, x, call, c, settling);
    } else {
      assert settling.None?;
      LiveBooks(source, x, call, c);
    }
    hide Books, Step, Sound;
  }

  /** After the end a plain call leaves the books as they are. */
  lemma EndedBooks(source: seq<Event>, x: Shared, call: Call, c: Choice, settling: Option<Call>)
    requires Sound(source, x, call) && !IsSettling(call) && x.terminal && Books(source, x, settling)
    ensures var moved := Step(source, x, call, c);
            !IsSettling(moved.call) && Books(source, moved.shared, settling)
  {
    hide NoneEnds, EndsWith;
    EndedStep(source, x, call, c);
    hide Step, Sound, IsSettling;
  }

  lemma EndedStep(source: seq<Event>, x: Shared, call: Call, c: Choice)
    requires Sound(source, x, call) && !IsSettling(call) && x.terminal
    ensures var moved := Step(source, x, call, c);
            var y := moved.shared;
            && !IsSettling(moved.call) && y.terminal && y.recordDone == x.recordDone && y.records == x.records
            && y.successes == x.successes && y.blames == x.blames && y.delivered == x.delivered
  {
  }

  /** Before it, nothing has been recorded, and a call that ends the stream begins to settle it. */
  lemma LiveBooks(source: seq<Event>, x: Shared, call: Call, c: Choice)
    requires Sound(source, x, call) && !IsSettling(call) && !x.terminal
    requires Untouched(x) && NoneEnds(source, x.delivered)
    ensures var moved := Step(source, x, call, c);
            Books(source, moved.shared, if IsSettling(moved.call) then Some(moved.call) else None)
  {
    if call.Locking? && x.firstHeld { MoreDelivered(source, x.delivered, 0); }
    if call.Got? { MoreDelivered(source, x.delivered, call.index); }
    hide NoneEnds, EndsWith;
  }

  predicate SettlesAt(calls: map<nat, Call>, id: nat) {
    id in calls && IsSettling(calls[id])
  }

  ghost predicate OneSettles(w: World, settling: Option<Call>) {
    && (settling.None? ==> forall id :: !SettlesAt(w.calls, id))
    && (settling.Some? ==>
         exists id :: SettlesAt(w.calls, id) && w.calls[id] == settling.value
                      && forall other :: SettlesAt(w.calls, other) ==> other == id)
  }

  ghost predicate Kept(source: seq<Event>, w: World) {
    exists settling :: Books(source, w.shared, settling) && OneSettles(w, settling)
  }

  lemma CallKeeps(source: seq<Event>, w: World, id: nat, call: Call)
    requires Kept(source, w) && id !in w.calls && !IsSettling(call)
    ensures Kept(source, w.(calls := w.calls[id := call]))
  {
    hide Books, IsSettling;
    var v := w.(calls := w.calls[id := call]);
    var settling :| Books(source, w.shared, settling) && OneSettles(w, settling);
    assert forall i :: SettlesAt(v.calls, i) <==> SettlesAt(w.calls, i);
    assert OneSettles(v, settling);
  }

  lemma GoKeeps(source: seq<Event>, w: World, id: nat, c: Choice)
    requires Kept(source, w) && id in w.calls && Sound(source, w.shared, w.calls[id])
    ensures var moved := Step(source, w.shared, w.calls[id], c);
            Kept(source, World(moved.shared, w.calls[id := moved.call]))
  {
    hide Books, IsSettling, Step, Sound;
    var call := w.calls[id];
    var settling :| Books(source, w.shared, settling) && OneSettles(w, settling);
    if IsSettling(call) { assert SettlesAt(w.calls, id); }
    StepBooks(source, w.shared, call, c, settling);
    var moved := Step(source, w.shared, call, c);
    var v := World(moved.shared, w.calls[id := moved.call]);
    forall i ensures SettlesAt(v.calls, i) <==> if i == id then IsSettling(moved.call) else SettlesAt(w.calls, i) {}
    var after := if IsSettling(moved.call) then Some(moved.call) else if IsSettling(call) then None else settling;
    if IsSettling(moved.call) { assert SettlesAt(v.calls, id); }
    OthersSettle(w, v, id, settling, after);
  }

  lemma OthersSettle(w: World, v: World, id: nat, settling: Option<Call>, after: Option<Call>)
    requires OneSettles(w, settling) && id in w.calls && id in v.calls && v.calls == w.calls[id := v.calls[id]]
    requires IsSettling(w.calls[id]) ==> settling == Some(w.calls[id])
    requires IsSettling(v.calls[id]) && !IsSettling(w.calls[id]) ==> settling.None?
    requires after == if IsSettling(v.calls[id]) then Some(v.calls[id])
             else if IsSettling(w.calls[id]) then None else settling
    ensures OneSettles(v, after)
  {
    hide IsSettling;
    forall i ensures SettlesAt(v.calls, i) <==> if i == id then IsSettling(v.calls[id]) else SettlesAt(w.calls, i) {}
    if IsSettling(w.calls[id]) { assert SettlesAt(w.calls, id); }
    if IsSettling(v.calls[id]) { assert SettlesAt(v.calls, id); }
    if after.Some? && !IsSettling(v.calls[id]) {
      var i :| SettlesAt(w.calls, i) && w.calls[i] == settling.value
               && forall other :: SettlesAt(w.calls, other) ==> other == i;
      assert SettlesAt(v.calls, i);
    }
  }

  lemma {:induction false} AlwaysKept(source: seq<Event>, moves: seq<Move>)
    requires source != []
    ensures Kept(source, After(source, moves))
  {
    hide Kept, Step, IsSettling;
    if moves == [] {
      StartKept(source);
    } else {
      var most, m := moves[..|moves| - 1], moves[|moves| - 1];
      AlwaysKept(source, most);
      var w := After(source, most);
      BeginnersDoNotSettle();
      match m {
        case CallNext(id) => if id !in w.calls { CallKeeps(source, w, id, Entering); }
        case CallClose(id) => if id !in w.calls { CallKeeps(source, w, id, CloseLocking); }
        case Go(id, c) => if id in w.calls { GoKeeps(source, w, id, c); }
      }
    }
  }

  lemma BeginnersDoNotSettle()
    ensures !IsSettling(Entering) && !IsSettling(CloseLocking)
  {
  }

  lemma StartKept(source: seq<Event>)
    ensures Kept(source, START)
  {
    assert Books(source, START.shared, None) && OneSettles(START, None);
  }

  // ----- Main results -----

  /**
   In every run, once all calls have returned: a stream that has ended has recorded the usage of the terminal event, and
   cleared the account, exactly when that event, the last one, was handed over; otherwise it has recorded one failure.
   */
  lemma RecordSays(source: seq<Event>, moves: seq<Move>)
    requires source != [] && forall id :: id in After(source, moves).calls ==> After(source, moves).calls[id].Returned?
    ensures var x := After(source, moves).shared;
            if !x.terminal then Untouched(x) && NoneEnds(source, x.delivered)
            else
              || (x.records == [Delta(1, 1, 0, 0, 0)] && NoneEnds(source, x.delivered) && x.successes == 0
                  && x.blames <= 1)
              || (exists d :: x.records == [d] && EndsWith(source, x.delivered, d) && x.successes == 1 && x.blames == 0)
  {
    AlwaysKept(source, moves);
    var w := After(source, moves);
    hide After, NoneEnds, EndsWith;
    var settling :| Books(source, w.shared, settling) && OneSettles(w, settling);
  }

  /** A Next that has failed comes to blame the account, and its failure is no mere cancellation. */
  predicate BlamesAt(source: seq<Event>, moves: seq<Move>, k: nat)
    requires source != []
  {
    && k < |moves| && moves[k].Go? && moves[k].id in After(source, moves[..k]).calls
    && After(source, moves[..k]).calls[moves[k].id] == Blaming && !moves[k].choice.cancellation
  }

  ghost predicate Blamed(source: seq<Event>, moves: seq<Move>)
    requires source != []
  {
    exists k: nat :: BlamesAt(source, moves, k)
  }

  lemma BlamedMore(source: seq<Event>, moves: seq<Move>)
    requires source != [] && moves != []
    ensures Blamed(source, moves)
       <==> Blamed(source, moves[..|moves| - 1]) || BlamesAt(source, moves, |moves| - 1)
  {
    hide After;
    var most := moves[..|moves| - 1];
    if Blamed(source, most) {
      var k: nat :| BlamesAt(source, most, k);
      assert most[..k] == moves[..k] && most[k] == moves[k];
      assert BlamesAt(source, moves, k);
    }
    if Blamed(source, moves) {
      var k: nat :| BlamesAt(source, moves, k);
      if k < |most| {
        assert most[..k] == moves[..k] && most[k] == moves[k];
        assert BlamesAt(source, most, k);
      }
    }
  }

  /** The account is blamed exactly when some such Next has come to it. */
  lemma {:induction false} BlamedExactly(source: seq<Event>, moves: seq<Move>)
    requires source != []
    ensures After(source, moves).shared.blames > 0 <==> Blamed(source, moves)
  {
    hide Step, Next, Blamed;
    if moves == [] {
      NobodyBlamed(source);
    } else {
      var most := moves[..|moves| - 1];
      BlamedExactly(source, most);
      BlamedMore(source, moves);
      BlameStep(source, After(source, most), moves[|most|]);
    }
  }

  lemma NobodyBlamed(source: seq<Event>)
    requires source != []
    ensures !Blamed(source, []) && After(source, []) == START
  {
  }

  lemma BlameStep(source: seq<Event>, w: World, m: Move)
    requires AllSound(source, w)
    ensures Next(source, w, m).shared.blames
         == w.shared.blames
            + if m.Go? && m.id in w.calls && w.calls[m.id] == Blaming && !m.choice.cancellation then 1 else 0
  {
  }
}

/** What a call that nothing interrupts comes to, told on the stream it finds. */
module RoutedStreamEndings {
  import opened Basics
  import opened RoutedStreamSteps
  import RoutedStream

  /** No event can be handed over: the caller has given up, or upstream fails or has ended and nothing is held back. */
  predicate NothingToHandOver(source: seq<Event>, x: Shared, c: Choice) {
    c.cancelled || (!x.firstHeld && (c.fails || x.next >= |source|))
  }

  /** The event that is due. */
  function Due(x: Shared): nat {
    if x.firstHeld then 0 else x.next
  }

  /**
   A Next finds the stream ended and changes nothing, or fails and ends it, or hands over the event that is due, which
   ends the stream exactly when it reports usage.
   */
  lemma NextReturns(source: seq<Event>, x: Shared, c: Choice)
    requires source != [] && x.next <= |source|
    ensures var moved := Alone(source, x, Entering, c);
            var y := moved.shared;
            moved.call.Returned? &&
            match moved.call.result
            case Closed => x.terminal && y == x
            case Failed =>
              && !x.terminal && NothingToHandOver(source, x, c)
              && y.terminal && y.closes == x.closes + 1 && y.delivered == x.delivered && y.committed == x.committed
              && y.successes == x.successes && y.blames == x.blames + (if c.cancellation then 0 else 1)
              && (!x.recordDone ==> y.records == x.records + [Delta(1, 1, 0, 0, 0)])
            case Delivered(index) =>
              && !x.terminal && !NothingToHandOver(source, x, c) && index == Due(x) < |source|
              && y.delivered == x.delivered + [index] && y.committed && !y.firstHeld
              && (y.terminal <==> source[index].usage.Some?) && y.blames == x.blames
              && (y.terminal ==>
                   && y.closes == x.closes + 1 && y.successes == x.successes + 1
                   && (!x.recordDone ==> y.records == x.records + [source[index].usage.value]))
              && (!y.terminal ==> y.closes == x.closes && y.successes == x.successes && y.records == x.records)
            case CloseDone => false
  {
    hide Alone;
    RoutedStream.NextAlone(source, x, c);
    if c.cancelled || (!x.terminal && NothingToHandOver(source, x, c)) {
      RoutedStream.FailureAlone(source, x, c);
    } else if !x.terminal {
      var taken := if x.firstHeld then x.(firstHeld := false) else x.(next := x.next + 1);
      RoutedStream.DeliverAlone(source, Deliver(source, taken, Due(x)), Due(x), c);
    }
  }

  /** A Close always ends the stream and closes upstream, and records a failure when the stream had not ended. */
  lemma CloseReturns(source: seq<Event>, x: Shared, c: Choice)
    requires source != [] && x.next <= |source|
    ensures var moved := Alone(source, x, CloseLocking, c);
            var y := moved.shared;
            && moved.call == Returned(CloseDone) && y.terminal && y.closes == x.closes + 1
            && y.delivered == x.delivered && y.successes == x.successes && y.blames == x.blames
            && (x.terminal ==> y.records == x.records)
            && (!x.terminal && !x.recordDone ==> y.records == x.records + [Delta(1, 1, 0, 0, 0)])
  {
    hide Alone;
    RoutedStream.CloseAlone(source, x, c);
  }
}
