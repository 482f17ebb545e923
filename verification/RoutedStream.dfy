/**
 A committed stream under any interleaving of Next and Close: each call is a
 program whose steps lie between its uses of the lock, and several may be at
 work at once. Upstream events are known by their position.
 */
module RoutedStreamSteps {
  import opened Basics

  datatype Delta = Delta(requests: int, failures: int, input: int, output: int, cached: int)

  const FAILURE := Delta(1, 1, 0, 0, 0)

  /** An event, with the usage it reports when it ends the stream. */
  datatype Event = Event(data: string, usage: Option<Delta>)

  /** What all calls share; the first event has been read before the stream is handed out. */
  datatype Shared = Shared(
    firstHeld: bool, committed: bool, terminal: bool, recordDone: bool, records: seq<Delta>,
    next: nat, delivered: seq<nat>, dropped: seq<nat>, closes: nat, successes: nat, blames: nat)

  const OPENED := Shared(true, false, false, false, [], 1, [], [], 0, 0, 0)

  datatype Ending = Delivered(index: nat) | Closed | Failed | CloseDone

  datatype Call =
    | Entering
    | Locking
    | Reading
    | Got(index: nat)
    | Recording(index: nat, delta: Delta)
    | Finishing(index: nat)
    | FailLocking
    | FailClosing
    | FailRecording
    | Blaming
    | CloseLocking
    | CloseRecording
    | CloseClosing
    | Returned(result: Ending)

  /** Whether the caller has given up, whether upstream fails, whether a failure is a mere cancellation. */
  datatype Choice = Choice(cancelled: bool, fails: bool, cancellation: bool)

  datatype Moved = Moved(shared: Shared, call: Call)

  function RecordOnce(x: Shared, delta: Delta): Shared {
    if x.recordDone then x else x.(recordDone := true, records := x.records + [delta])
  }

  /** Hands an event over, under the lock. */
  function Deliver(source: seq<Event>, x: Shared, index: nat): Moved
    requires index < |source|
  {
    var usage := source[index].usage;
    Moved(x.(committed := true, terminal := x.terminal || usage.Some?, delivered := x.delivered + [index]),
          if usage.Some? then Recording(index, usage.value) else Returned(Delivered(index)))
  }

  /** Calls never hold an event that upstream does not have. */
  predicate Sound(source: seq<Event>, x: Shared, call: Call) {
    source != [] && x.next <= |source| && (call.Got? ==> call.index < |source|)
  }

  function Step(source: seq<Event>, x: Shared, call: Call, c: Choice): Moved
    requires Sound(source, x, call)
  {
    match call
    case Entering => Moved(x, if c.cancelled then FailLocking else Locking)
    case Locking =>
      if x.terminal then Moved(x, Returned(Closed))
      else if x.firstHeld then Deliver(source, x.(firstHeld := false), 0)
      else Moved(x, Reading)
    case Reading =>
      if c.fails || x.next == |source| then Moved(x, FailLocking)
      else Moved(x.(next := x.next + 1), Got(x.next))
    case Got(index) =>
      if x.terminal then Moved(x.(dropped := x.dropped + [index]), Returned(Closed)) else Deliver(source, x, index)
    case Recording(index, delta) => Moved(RecordOnce(x, delta), Finishing(index))
    case Finishing(index) => Moved(x.(successes := x.successes + 1, closes := x.closes + 1), Returned(Delivered(index)))
    case FailLocking => if x.terminal then Moved(x, Returned(Closed)) else Moved(x.(terminal := true), FailClosing)
    case FailClosing => Moved(x.(closes := x.closes + 1), FailRecording)
    case FailRecording => Moved(RecordOnce(x, FAILURE), Blaming)
    case Blaming => Moved(if c.cancellation then x else x.(blames := x.blames + 1), Returned(Failed))
    case CloseLocking => if x.terminal then Moved(x, CloseClosing) else Moved(x.(terminal := true), CloseRecording)
    case CloseRecording => Moved(RecordOnce(x, FAILURE), CloseClosing)
    case CloseClosing => Moved(x.(closes := x.closes + 1), Returned(CloseDone))
    case Returned(_) => Moved(x, call)
  }

  // ----- The machine -----

  datatype World = World(shared: Shared, calls: map<nat, Call>)

  const START := World(OPENED, map[])

  datatype Move = CallNext(id: nat) | CallClose(id: nat) | Go(id: nat, choice: Choice)

  ghost predicate AllSound(source: seq<Event>, w: World) {
    source != [] && w.shared.next <= |source| && forall id ::
         id in w.calls && w.calls[id].Got? ==> w.calls[id].index < |source|
  }

  /** The world after a move; a call id is used once. */
  function Next(source: seq<Event>, w: World, m: Move): World
    requires AllSound(source, w)
  {
    match m
    case CallNext(id) => if id in w.calls then w else w.(calls := w.calls[id := Entering])
    case CallClose(id) => if id in w.calls then w else w.(calls := w.calls[id := CloseLocking])
    case Go(id, choice) =>
      if id !in w.calls then w
      else
        var moved := Step(source, w.shared, w.calls[id], choice);
        World(moved.shared, w.calls[id := moved.call])
  }

  lemma NextSound(source: seq<Event>, w: World, m: Move)
    requires AllSound(source, w)
    ensures AllSound(source, Next(source, w, m))
  {
    if m.Go? && m.id in w.calls { StepSound(source, w.shared, w.calls[m.id], m.choice); }
    hide Step;
  }

  lemma StepSound(source: seq<Event>, x: Shared, call: Call, c: Choice)
    requires Sound(source, x, call)
    ensures var moved := Step(source, x, call, c);
            Sound(source, moved.shared, moved.call) && x.next <= moved.shared.next
  {
  }

  function After(source: seq<Event>, moves: seq<Move>): (w: World)
    requires source != []
    ensures AllSound(source, w)
  {
    if moves == [] then START
    else
      var before := After(source, moves[..|moves| - 1]);
      NextSound(source, before, moves[|moves| - 1]);
      Next(source, before, moves[|moves| - 1])
  }

  /** How many steps a call has left, at most. */
  function StepsLeft(call: Call): nat {
    match call
    case Entering => 8
    case Locking => 7
    case Reading => 6
    case Got(_) => 4
    case Recording(_, _) => 2
    case Finishing(_) => 1
    case FailLocking => 4
    case FailClosing => 3
    case FailRecording => 2
    case Blaming => 1
    case CloseLocking => 3
    case CloseRecording => 2
    case CloseClosing => 1
    case Returned(_) => 0
  }

  /** A call that nothing interrupts. */
  function Alone(source: seq<Event>, x: Shared, call: Call, c: Choice): Moved
    requires Sound(source, x, call)
    decreases StepsLeft(call)
  {
    if call.Returned? then Moved(x, call)
    else
      var moved := Step(source, x, call, c);
      Alone(source, moved.shared, moved.call, c)
  }
}

/** Safety of every interleaving. */
module RoutedStreamLaws {
  import opened RoutedStreamSteps

  /** A call that has made the stream terminal and is on its way to the one usage record. */
  predicate Recorder(call: Call) {
    call.Recording? || call.FailClosing? || call.FailRecording? || call.CloseRecording?
  }

  predicate RecorderAt(calls: map<nat, Call>, id: nat) {
    id in calls && Recorder(calls[id])
  }

  /** Records and calls about to record: none before the stream is terminal, one in all afterwards. */
  ghost predicate OneRecord(w: World) {
    var x := w.shared;
    && |x.records| == (if x.recordDone then 1 else 0)
    && (!x.terminal || x.recordDone ==> forall id :: !RecorderAt(w.calls, id))
    && (x.recordDone ==> x.terminal)
    && (x.terminal && !x.recordDone ==>
          (exists id :: RecorderAt(w.calls, id))
          && forall i, j :: RecorderAt(w.calls, i) && RecorderAt(w.calls, j) ==> i == j)
  }

  lemma CallKeepsRecord(w: World, id: nat, call: Call)
    requires OneRecord(w) && id !in w.calls && !Recorder(call)
    ensures OneRecord(w.(calls := w.calls[id := call]))
  {
    var v := w.(calls := w.calls[id := call]);
    assert forall i :: RecorderAt(v.calls, i) <==> RecorderAt(w.calls, i);
    hide Recorder;
  }

  /** The three ways in which a step bears on the record. */
  lemma StepKeepsRecord(source: seq<Event>, w: World, id: nat, c: Choice)
    requires OneRecord(w) && id in w.calls && Sound(source, w.shared, w.calls[id])
    ensures var moved := Step(source, w.shared, w.calls[id], c);
            OneRecord(World(moved.shared, w.calls[id := moved.call]))
  {
    var moved := Step(source, w.shared, w.calls[id], c);
    var v := World(moved.shared, w.calls[id := moved.call]);
    forall i ensures RecorderAt(v.calls, i) <==> if i == id then Recorder(moved.call) else RecorderAt(w.calls, i) {}
    if Recorder(moved.call) { assert RecorderAt(v.calls, id); }
    if Recorder(w.calls[id]) { assert RecorderAt(w.calls, id); }
    StepRecords(source, w.shared, w.calls[id], c);
    hide Step, Recorder, Sound;
    if v.shared.terminal && !v.shared.recordDone && !Recorder(moved.call) {
      var i :| RecorderAt(w.calls, i);
      assert RecorderAt(v.calls, i);
    }
  }

  /** A step either begins the record, makes it, stays on the way to it, or has nothing to do with it. */
  lemma StepRecords(source: seq<Event>, x: Shared, call: Call, c: Choice)
    requires Sound(source, x, call)
    ensures var moved := Step(source, x, call, c);
            var y := moved.shared;
            && (x.terminal ==> y.terminal)
            && (if !Recorder(call) && Recorder(moved.call)
                then !x.terminal && y.terminal && y.recordDone == x.recordDone && y.records == x.records
                else if Recorder(call) && !Recorder(moved.call) then y.recordDone && y.terminal == x.terminal
                       && y.records == (if x.recordDone then x.records else x.records + [y.records[|y.records| - 1]])
                       && |y.records| == |x.records| + (if x.recordDone then 0 else 1)
                else y.terminal == x.terminal && y.recordDone == x.recordDone && y.records == x.records)
  {
  }

  lemma {:induction false} AlwaysOneRecord(source: seq<Event>, moves: seq<Move>)
    requires source != []
    ensures OneRecord(After(source, moves))
  {
    hide OneRecord, Step, Recorder;
    if moves == [] {
      StartRecords();
    } else {
      var most, m := moves[..|moves| - 1], moves[|moves| - 1];
      AlwaysOneRecord(source, most);
      var w := After(source, most);
      match m {
        case CallNext(id) => if id !in w.calls { NotRecorders(); CallKeepsRecord(w, id, Entering); }
        case CallClose(id) => if id !in w.calls { NotRecorders(); CallKeepsRecord(w, id, CloseLocking); }
        case Go(id, c) => if id in w.calls { StepKeepsRecord(source, w, id, c); }
      }
    }
  }

  lemma NotRecorders()
    ensures !Recorder(Entering) && !Recorder(CloseLocking)
  {
  }

  lemma StartRecords()
    ensures OneRecord(START)
  {
  }

  ghost predicate AllReturned(calls: map<nat, Call>) {
    forall id :: id in calls ==> calls[id].Returned?
  }

  /**
   However Next and Close calls interleave, usage is never recorded before the stream turns terminal nor more than
   once; and once all calls have returned it has been recorded exactly once if the stream is terminal.
   */
  lemma RecordedExactlyOnce(source: seq<Event>, moves: seq<Move>)
    requires source != []
    ensures var w := After(source, moves);
            && |w.shared.records| <= (if w.shared.terminal then 1 else 0)
            && (AllReturned(w.calls) ==> |w.shared.records| == if w.shared.terminal then 1 else 0)
  {
    hide After;
    AlwaysOneRecord(source, moves);
  }

  // ----- Where the events are -----

  predicate Holds(calls: map<nat, Call>, id: nat, index: nat) {
    id in calls && calls[id] == Got(index)
  }

  ghost predicate Somewhere(w: World, i: nat) {
    (w.shared.firstHeld && i == 0) || i in w.shared.delivered || i in w.shared.dropped
      || exists id :: Holds(w.calls, id, i)
  }

  /**
   Every event read is in exactly one place: still held back, handed over, dropped after the end, or with one call.
   */
  ghost predicate EventsKept(w: World) {
    var x := w.shared;
    && x.next >= 1
    && (forall j, k :: 0 <= j < k < |x.delivered| ==> x.delivered[j] != x.delivered[k])
    && (forall i :: i in x.delivered ==> i < x.next && i !in x.dropped && (x.firstHeld ==> i != 0))
    && (forall i :: i in x.dropped ==> i < x.next && (x.firstHeld ==> i != 0))
    && (forall id, i: nat :: Holds(w.calls, id, i) ==> 0 < i < x.next && i !in x.delivered && i !in x.dropped)
    && (forall id, other, i: nat :: Holds(w.calls, id, i) && Holds(w.calls, other, i) ==> id == other)
    && (forall i: nat :: i < x.next ==> Somewhere(w, i))
    && (x.dropped != [] ==> x.terminal)
  }

  /** What a step does to the events: hand one over, drop one, take one, or nothing. */
  predicate Handles(x: Shared, call: Call, y: Shared, after: Call) {
    (x.terminal ==> y.terminal)
    && ( || (&& y.firstHeld == x.firstHeld && y.next == x.next && y.delivered == x.delivered && y.dropped == x.dropped
             && !call.Got? && !after.Got?)
         || (&& x.firstHeld && !y.firstHeld && y.next == x.next && y.delivered == x.delivered + [0]
             && y.dropped == x.dropped
             && call.Locking? && !after.Got? && !x.terminal)
         || (&& y.firstHeld == x.firstHeld && y.next == x.next + 1 && y.delivered == x.delivered
             && y.dropped == x.dropped
             && call.Reading? && after == Got(x.next))
         || (&& y.firstHeld == x.firstHeld && y.next == x.next && call.Got? && !after.Got?
             && ((!x.terminal && y.delivered == x.delivered + [call.index] && y.dropped == x.dropped)
                 || (x.terminal && y.delivered == x.delivered && y.dropped == x.dropped + [call.index]))))
  }

  lemma StepHandles(source: seq<Event>, x: Shared, call: Call, c: Choice)
    requires Sound(source, x, call)
    ensures var moved := Step(source, x, call, c); Handles(x, call, moved.shared, moved.call)
  {
  }

  /** Who holds what after one call has moved. */
  lemma HoldersAfter(calls: map<nat, Call>, id: nat, after: Call, moved: map<nat, Call>)
    requires id in calls && moved == calls[id := after]
    ensures forall other: nat, i: nat ::
            Holds(moved, other, i) <==> (if other == id then after == Got(i) else Holds(calls, other, i))
  {
  }

  lemma UnmovedKeeps(w: World, id: nat, y: Shared, after: Call)
    requires EventsKept(w) && id in w.calls && !w.calls[id].Got? && !after.Got? && (w.shared.terminal ==> y.terminal)
    requires y.firstHeld == w.shared.firstHeld && y.next == w.shared.next && y.delivered == w.shared.delivered
    requires y.dropped == w.shared.dropped
    ensures EventsKept(World(y, w.calls[id := after]))
  {
    var v := World(y, w.calls[id := after]);
    HoldersAfter(w.calls, id, after, v.calls);
    forall other: nat, i: nat ensures Holds(v.calls, other, i) <==> Holds(w.calls, other, i) {}
    hide Holds;
    forall i: nat | i < y.next ensures Somewhere(v, i) { assert Somewhere(w, i); }
  }

  lemma FirstKeeps(w: World, id: nat, y: Shared, after: Call)
    requires EventsKept(w) && id in w.calls && !w.calls[id].Got? && !after.Got? && w.shared.firstHeld
    requires !w.shared.terminal
    requires !y.firstHeld && y.next == w.shared.next && y.delivered == w.shared.delivered + [0]
    requires y.dropped == w.shared.dropped
    ensures EventsKept(World(y, w.calls[id := after]))
  {
    var v := World(y, w.calls[id := after]);
    HoldersAfter(w.calls, id, after, v.calls);
    forall other: nat, i: nat ensures Holds(v.calls, other, i) <==> Holds(w.calls, other, i) {}
    hide Holds;
    assert forall i: nat :: i in y.delivered <==> i in w.shared.delivered || i == 0;
    forall i: nat | i < y.next ensures Somewhere(v, i) { assert Somewhere(w, i); }
    forall j, k | 0 <= j < k < |y.delivered|
      ensures y.delivered[j] != y.delivered[k]
    {
      assert y.delivered[j] in w.shared.delivered;
    }
  }

  lemma TakenKeeps(w: World, id: nat, y: Shared)
    requires EventsKept(w) && id in w.calls && w.calls[id].Reading? && (w.shared.terminal ==> y.terminal)
    requires y.firstHeld == w.shared.firstHeld && y.next == w.shared.next + 1 && y.delivered == w.shared.delivered
    requires y.dropped == w.shared.dropped
    ensures EventsKept(World(y, w.calls[id := Got(w.shared.next)]))
  {
    var after := Got(w.shared.next);
    var v := World(y, w.calls[id := after]);
    HoldersAfter(w.calls, id, after, v.calls);
    assert Holds(v.calls, id, w.shared.next);
    forall other: nat, i: nat ensures Holds(v.calls, other, i)
      <==> Holds(w.calls, other, i) || (other == id && i == w.shared.next) {}
    hide Holds;
    forall i: nat | i < y.next ensures Somewhere(v, i) { if i < w.shared.next { assert Somewhere(w, i); } }
  }

  lemma PlacedKeeps(w: World, id: nat, y: Shared, after: Call)
    requires EventsKept(w) && id in w.calls && w.calls[id].Got? && !after.Got? && (w.shared.terminal ==> y.terminal)
    requires y.firstHeld == w.shared.firstHeld && y.next == w.shared.next
    requires var i := w.calls[id].index;
             || (!w.shared.terminal && y.delivered == w.shared.delivered + [i] && y.dropped == w.shared.dropped)
             || (w.shared.terminal && y.delivered == w.shared.delivered && y.dropped == w.shared.dropped + [i])
    ensures EventsKept(World(y, w.calls[id := after]))
  {
    var v := World(y, w.calls[id := after]);
    HoldersAfter(w.calls, id, after, v.calls);
    var placed := w.calls[id].index;
    assert Holds(w.calls, id, placed);
    forall other: nat | other != id ensures !Holds(w.calls, other, placed) {}
    forall other: nat, i: nat ensures Holds(v.calls, other, i) <==> Holds(w.calls, other, i) && i != placed {
      assert Holds(w.calls, id, i) ==> i == placed;
    }
    hide Holds;
    assert forall i: nat ::
         i in y.delivered || i in y.dropped <==> i in w.shared.delivered || i in w.shared.dropped || i == placed;
    forall i: nat | i < y.next ensures Somewhere(v, i) { assert Somewhere(w, i); }
    forall j, k | 0 <= j < k < |y.delivered|
      ensures y.delivered[j] != y.delivered[k]
    {
      assert y.delivered[j] in w.shared.delivered;
    }
  }

  lemma StepKeepsEvents(w: World, id: nat, y: Shared, after: Call)
    requires EventsKept(w) && id in w.calls && Handles(w.shared, w.calls[id], y, after)
    ensures EventsKept(World(y, w.calls[id := after]))
  {
    hide EventsKept;
    var x, call := w.shared, w.calls[id];
    if call.Got? {
      PlacedKeeps(w, id, y, after);
    } else if after.Got? {
      TakenKeeps(w, id, y);
    } else if y.firstHeld != x.firstHeld {
      FirstKeeps(w, id, y, after);
    } else {
      UnmovedKeeps(w, id, y, after);
    }
  }

  lemma CallKeepsEvents(w: World, id: nat, call: Call)
    requires EventsKept(w) && id !in w.calls && !call.Got?
    ensures EventsKept(w.(calls := w.calls[id := call]))
  {
    var v := w.(calls := w.calls[id := call]);
    forall other: nat, i: nat ensures Holds(v.calls, other, i) <==> Holds(w.calls, other, i) {}
    hide Holds;
    forall i: nat | i < w.shared.next ensures Somewhere(v, i) { assert Somewhere(w, i); }
  }

  lemma {:induction false} AlwaysKept(source: seq<Event>, moves: seq<Move>)
    requires source != []
    ensures EventsKept(After(source, moves))
  {
    hide EventsKept, Step, Handles;
    if moves == [] {
      StartKept();
    } else {
      var most, m := moves[..|moves| - 1], moves[|moves| - 1];
      AlwaysKept(source, most);
      var w := After(source, most);
      match m {
        case CallNext(id) => if id !in w.calls { CallKeepsEvents(w, id, Entering); }
        case CallClose(id) => if id !in w.calls { CallKeepsEvents(w, id, CloseLocking); }
        case Go(id, c) =>
          if id in w.calls {
            StepHandles(source, w.shared, w.calls[id], c);
            var moved := Step(source, w.shared, w.calls[id], c);
            StepKeepsEvents(w, id, moved.shared, moved.call);
          }
      }
    }
  }

  lemma StartKept()
    ensures EventsKept(START)
  {
  }

  /**
   Under any interleaving no event is delivered twice, and an event that has been read is delivered, on its way to
   its caller or still held back, unless the stream has turned terminal.
   */
  lemma NothingLostOrRepeated(source: seq<Event>, moves: seq<Move>)
    requires source != []
    ensures var w := After(source, moves);
            && (forall j, k :: 0 <= j < k < |w.shared.delivered| ==> w.shared.delivered[j] != w.shared.delivered[k])
            && (!w.shared.terminal ==> forall i: nat :: i < w.shared.next ==>
                  (w.shared.firstHeld && i == 0) || i in w.shared.delivered || exists id :: Holds(w.calls, id, i))
  {
    hide After, Holds;
    AlwaysKept(source, moves);
    var w := After(source, moves);
    forall i: nat | !w.shared.terminal && i < w.shared.next
      ensures (w.shared.firstHeld && i == 0) || i in w.shared.delivered || exists id :: Holds(w.calls, id, i)
    {
      assert Somewhere(w, i);
    }
  }

  // ----- One reader at a time -----

  predicate ReadingCall(call: Call) {
    !call.CloseLocking? && !call.CloseRecording? && !call.CloseClosing? && !call.Returned?
  }

  predicate ReadsAt(calls: map<nat, Call>, id: nat) {
    id in calls && ReadingCall(calls[id])
  }

  ghost predicate NoReaders(calls: map<nat, Call>) {
    forall id :: !ReadsAt(calls, id)
  }

  /** No Next is called while another is at work. */
  ghost predicate OneReader(source: seq<Event>, moves: seq<Move>)
    requires source != []
  {
    moves != [] ==>
      && OneReader(source, moves[..|moves| - 1])
      && (moves[|moves| - 1].CallNext? ==> NoReaders(After(source, moves[..|moves| - 1]).calls))
  }

  /** The events handed over are the first ones, in order; the reader holds the next one at most. */
  ghost predicate InOrder(w: World) {
    var x := w.shared;
    && AtMostOneReader(w.calls)
    && (forall k :: 0 <= k < |x.delivered| ==> x.delivered[k] == k)
    && (x.dropped != [] ==> x.terminal)
    && (x.firstHeld ==> x.next == 1 && x.delivered == [] && x.dropped == []
                        && forall id :: id in w.calls ==> !w.calls[id].Reading? && !w.calls[id].Got?)
    && (forall id :: id in w.calls && w.calls[id].Got? ==>
         w.calls[id].index + 1 == x.next && |x.delivered| + |x.dropped| + 1 == x.next)
    && (!x.firstHeld && NobodyHolds(w.calls) ==> |x.delivered| + |x.dropped| == x.next)
  }

  /** A call never starts reading after it has left, and only moves on to reading when nothing is held back. */
  lemma StepReads(source: seq<Event>, x: Shared, call: Call, c: Choice)
    requires Sound(source, x, call)
    ensures var moved := Step(source, x, call, c);
            && (ReadingCall(moved.call) ==> ReadingCall(call)) && (moved.call.Reading? ==> !moved.shared.firstHeld)
            && (moved.call.Got? ==> call.Reading?) && (call.Reading? || call.Got? ==> ReadingCall(call))
  {
  }

  /** With one reader, nobody else holds an event or is about to read one. */
  lemma OnlyReader(w: World, id: nat, other: nat)
    requires InOrder(w) && id in w.calls && ReadingCall(w.calls[id]) && other in w.calls && other != id
    ensures !w.calls[other].Got? && !w.calls[other].Reading?
  {
    assert ReadsAt(w.calls, id) && !ReadsAt(w.calls, other);
  }

  ghost predicate AtMostOneReader(calls: map<nat, Call>) {
    forall i, j :: ReadsAt(calls, i) && ReadsAt(calls, j) ==> i == j
  }

  lemma OneReaderStays(calls: map<nat, Call>, id: nat, after: Call)
    requires AtMostOneReader(calls) && id in calls && (ReadingCall(after) ==> ReadingCall(calls[id]))
    ensures AtMostOneReader(calls[id := after])
  {
    var moved := calls[id := after];
    forall other: nat ensures ReadsAt(moved, other) ==> ReadsAt(calls, other) {}
  }

  ghost predicate NobodyHolds(calls: map<nat, Call>) {
    forall id :: id in calls ==> !calls[id].Got?
  }

  /** Whether anybody holds an event after one call has moved. */
  lemma HoldersMoved(w: World, v: World, id: nat, after: Call)
    requires InOrder(w) && id in w.calls && v.calls == w.calls[id := after]
    requires (ReadingCall(after) ==> ReadingCall(w.calls[id])) && (after.Got? ==> w.calls[id].Reading?)
    ensures ReadingCall(w.calls[id]) && (w.calls[id].Reading? || w.calls[id].Got?)
        ==> (NobodyHolds(v.calls) <==> !after.Got?)
    ensures !w.calls[id].Got? && !after.Got? ==> (NobodyHolds(v.calls) <==> NobodyHolds(w.calls))
  {
    forall other | other in w.calls && other != id ensures v.calls[other] == w.calls[other] {}
    assert id in v.calls && v.calls[id] == after;
    if ReadingCall(w.calls[id]) {
      forall other | other in w.calls && other != id ensures !w.calls[other].Got? { OnlyReader(w, id, other); }
    }
    if NobodyHolds(v.calls) && !w.calls[id].Got? {
      forall other | other in w.calls ensures !w.calls[other].Got? { assert other != id ==> !v.calls[other].Got?; }
    }
  }

  lemma StepInOrder(w: World, id: nat, y: Shared, after: Call)
    requires InOrder(w) && id in w.calls && Handles(w.shared, w.calls[id], y, after)
    requires ReadingCall(after) ==> ReadingCall(w.calls[id])
    requires after.Reading? ==> !y.firstHeld
    ensures InOrder(World(y, w.calls[id := after]))
  {
    var v := World(y, w.calls[id := after]);
    var x, call := w.shared, w.calls[id];
    OneReaderStays(w.calls, id, after);
    HoldersMoved(w, v, id, after);
    forall other | other in w.calls && other != id ensures v.calls[other] == w.calls[other] {}
    if call.Reading? || call.Got? {
      forall other | other in w.calls && other != id ensures !w.calls[other].Got? && !w.calls[other].Reading? {
        OnlyReader(w, id, other);
      }
    }
    hide ReadsAt, ReadingCall, AtMostOneReader;
  }

  lemma CallInOrder(w: World, id: nat, call: Call)
    requires InOrder(w) && id !in w.calls && !call.Got? && !call.Reading?
    requires ReadingCall(call) ==> NoReaders(w.calls)
    ensures InOrder(w.(calls := w.calls[id := call]))
  {
    var v := w.(calls := w.calls[id := call]);
    assert forall other :: other != id ==> (ReadsAt(v.calls, other) <==> ReadsAt(w.calls, other));
    assert forall other :: other in w.calls ==> v.calls[other] == w.calls[other];
    if forall other :: other in v.calls ==> !v.calls[other].Got? {
      assert forall other :: other in w.calls ==> !w.calls[other].Got?;
    }
    hide ReadsAt;
  }

  lemma {:induction false} AlwaysInOrder(source: seq<Event>, moves: seq<Move>)
    requires source != [] && OneReader(source, moves)
    ensures InOrder(After(source, moves))
  {
    hide InOrder, Step, Handles, ReadingCall;
    if moves == [] {
      StartInOrder();
    } else {
      var most, m := moves[..|moves| - 1], moves[|moves| - 1];
      AlwaysInOrder(source, most);
      var w := After(source, most);
      match m {
        case CallNext(id) => if id !in w.calls { CallInOrder(w, id, Entering); }
        case CallClose(id) => if id !in w.calls { CloseIsNoReader(); CallInOrder(w, id, CloseLocking); }
        case Go(id, c) =>
          if id in w.calls {
            StepHandles(source, w.shared, w.calls[id], c);
            StepReads(source, w.shared, w.calls[id], c);
            var moved := Step(source, w.shared, w.calls[id], c);
            StepInOrder(w, id, moved.shared, moved.call);
          }
      }
    }
  }

  lemma CloseIsNoReader()
    ensures !ReadingCall(CloseLocking)
  {
  }

  lemma StartInOrder()
    ensures InOrder(START)
  {
  }

  /**
   With one reader, whatever Close calls do, the events delivered are the upstream events from the first on, in order.
   */
  lemma DeliveredInOrder(source: seq<Event>, moves: seq<Move>)
    requires source != [] && OneReader(source, moves)
    ensures var x := After(source, moves).shared;
            |x.delivered| <= |source| && forall k :: 0 <= k < |x.delivered| ==> x.delivered[k] == k
  {
    hide After, OneReader;
    AlwaysInOrder(source, moves);
    DeliveredBound(After(source, moves));
  }

  lemma DeliveredBound(w: World)
    requires InOrder(w)
    ensures |w.shared.delivered| <= w.shared.next
  {
    if id :| id in w.calls && w.calls[id].Got? {
    }
  }
}

/** The stream object, its calls running alone. */
module RoutedStream {
  import opened Basics
  import opened Steps = RoutedStreamSteps

  /** The upstream side: how far it has been read, and how often it was closed. */
  class Upstream {
    const events: seq<Event>
    var next: nat
    var closes: nat

    constructor (events: seq<Event>)
      requires events != []
      ensures this.events == events && next == 1 && closes == 0
    {
      this.events, next, closes := events, 1, 0;
    }

    /** The position of the next event; None when upstream fails or has ended. */
    method Next(fails: bool) returns (index: Option<nat>)
      modifies this`next
      ensures index == if fails || old(next) >= |events| then None else Some(old(next))
      ensures next == if index.Some? then old(next) + 1 else old(next)
    {
      if fails || next >= |events| { return None; }
      next := next + 1;
      return Some(next - 1);
    }

    method Close()
      modifies this`closes
      ensures closes == old(closes) + 1
    {
      closes := closes + 1;
    }
  }

  class RoutedStream {
    const stream: Upstream
    const accountID: string
    var first: Option<nat>
    var committed: bool
    var terminal: bool
    var recordDone: bool
    var records: seq<Delta>
    var successes: nat
    var blames: nat
    ghost var delivered: seq<nat>
    ghost var dropped: seq<nat>

    ghost predicate Valid()
      reads this, stream
    {
      stream.events != [] && stream.next <= |stream.events| && (first.Some? ==> first.value == 0)
    }

    ghost function View(): Shared
      reads this, stream
    {
      Shared(first.Some?, committed, terminal, recordDone, records, stream.next, delivered, dropped, stream.closes,
             successes, blames)
    }

    /** A stream whose first event has been read. */
    constructor (stream: Upstream, accountID: string)
      requires stream.events != [] && stream.next == 1 && stream.closes == 0
      ensures this.stream == stream && this.accountID == accountID && Valid() && View() == OPENED
    {
      this.stream, this.accountID := stream, accountID;
      first, committed, terminal, recordDone := Some(0), false, false, false;
      records, successes, blames := [], 0, 0;
      delivered, dropped := [], [];
    }

    method Record(delta: Delta)
      modifies this`recordDone, this`records
      ensures View() == RecordOnce(old(View()), delta)
    {
      if !recordDone {
        recordDone := true;
        records := records + [delta];
      }
    }

    method FinishSuccess(delta: Delta)
      modifies this`recordDone, this`records, this`successes, stream`closes
      ensures var x := RecordOnce(old(View()), delta);
              View() == x.(successes := x.successes + 1, closes := x.closes + 1)
    {
      Record(delta);
      successes := successes + 1;
      stream.Close();
    }

    method FinishFailure(cancellation: bool) returns (result: Ending)
      requires Valid()
      modifies this`terminal, this`recordDone, this`records, this`blames, stream`closes
      ensures Valid()
      ensures Moved(View(), Returned(result))
           == Alone(stream.events, old(View()), FailLocking, Choice(false, false, cancellation))
    {
      FailureAlone(stream.events, View(), Choice(false, false, cancellation));
      if terminal { return Closed; }
      terminal := true;
      stream.Close();
      Record(FAILURE);
      if !cancellation { blames := blames + 1; }
      return Failed;
    }

    /** Hands an event over and, when it is the last one, finishes the stream. */
    method HandOver(index: nat) returns (result: Ending)
      requires Valid() && index < |stream.events|
      modifies this`committed, this`terminal, this`delivered, this`recordDone, this`records, this`successes,
          stream`closes
      ensures Valid() && result == Delivered(index)
      ensures forall c :: var m := Deliver(stream.events, old(View()), index);
                Moved(View(), Returned(result)) == Alone(stream.events, m.shared, m.call, c)
    {
      committed := true;
      delivered := delivered + [index];
      var usage := stream.events[index].usage;
      ghost var m := Deliver(stream.events, old(View()), index);
      forall c ensures Alone(stream.events, m.shared, m.call, c) == DeliveredAlone(m.shared, index, usage) {
        DeliverAlone(stream.events, m, index, c);
      }
      if usage.Some? {
        terminal := true;
        FinishSuccess(usage.value);
      }
      return Delivered(index);
    }

    method Next(cancelled: bool, fails: bool, cancellation: bool) returns (result: Ending)
      requires Valid()
      modifies this, stream`next, stream`closes
      ensures Valid()
      ensures Moved(View(), Returned(result))
           == Alone(stream.events, old(View()), Entering, Choice(cancelled, fails, cancellation))
    {
      hide Alone, Deliver;
      ghost var c := Choice(cancelled, fails, cancellation);
      NextAlone(stream.events, View(), c);
      FailureAnyChoice(stream.events, View(), c);
      if cancelled {
        result := FinishFailure(cancellation);
        return;
      }
      if terminal { return Closed; }
      if first.Some? {
        first := None;
        assert View() == old(View()).(firstHeld := false);
        result := HandOver(0);
        return;
      }
      var index := stream.Next(fails);
      if index.None? {
        result := FinishFailure(cancellation);
        return;
      }
      assert View() == old(View()).(next := old(View()).next + 1);
      result := HandOver(index.value);
    }

    method Close() returns (result: Ending)
      requires Valid()
      modifies this`terminal, this`recordDone, this`records, stream`closes
      ensures Valid()
      ensures forall c :: Moved(View(), Returned(result)) == Alone(stream.events, old(View()), CloseLocking, c)
    {
      forall c { CloseAlone(stream.events, View(), c); }
      var shouldRecord := !terminal;
      if shouldRecord {
        terminal := true;
        Record(FAILURE);
      }
      stream.Close();
      return CloseDone;
    }
  }

  function DeliveredAlone(x: Shared, index: nat, usage: Option<Delta>): Moved {
    if usage.None? then Moved(x, Returned(Delivered(index)))
    else
      var y := RecordOnce(x, usage.value);
      Moved(y.(successes := y.successes + 1, closes := y.closes + 1), Returned(Delivered(index)))
  }

  lemma DeliverAlone(source: seq<Event>, m: Moved, index: nat, c: Choice)
    requires index < |source| && Sound(source, m.shared, m.call)
    requires m.call == if source[index].usage.Some? then Recording(index, source[index].usage.value)
             else Returned(Delivered(index))
    ensures Alone(source, m.shared, m.call, c) == DeliveredAlone(m.shared, index, source[index].usage)
  {
    if m.call.Recording? {
      var m2 := Step(source, m.shared, m.call, c);
      var m3 := Step(source, m2.shared, m2.call, c);
      assert Alone(source, m3.shared, m3.call, c) == m3;
      assert Alone(source, m2.shared, m2.call, c) == m3;
    }
  }

  lemma FailureAlone(source: seq<Event>, x: Shared, c: Choice)
    requires Sound(source, x, FailLocking)
    ensures Alone(source, x, FailLocking, c)
         == if x.terminal then Moved(x, Returned(Closed))
            else
              var y := RecordOnce(x.(terminal := true, closes := x.closes + 1), FAILURE);
              Moved(if c.cancellation then y else y.(blames := y.blames + 1), Returned(Failed))
  {
    var m1 := Step(source, x, FailLocking, c);
    if x.terminal {
      assert Alone(source, m1.shared, m1.call, c) == m1;
    } else {
      var m2 := Step(source, m1.shared, m1.call, c);
      var m3 := Step(source, m2.shared, m2.call, c);
      var m4 := Step(source, m3.shared, m3.call, c);
      assert Alone(source, m4.shared, m4.call, c) == m4;
      assert Alone(source, m3.shared, m3.call, c) == m4;
      assert Alone(source, m2.shared, m2.call, c) == m4;
      assert Alone(source, m1.shared, m1.call, c) == m4;
    }
  }

  lemma FailureAnyChoice(source: seq<Event>, x: Shared, c: Choice)
    requires Sound(source, x, FailLocking)
    ensures Alone(source, x, FailLocking, c) == Alone(source, x, FailLocking, Choice(false, false, c.cancellation))
  {
    FailureAlone(source, x, c);
    FailureAlone(source, x, Choice(false, false, c.cancellation));
  }

  /** A Next call, down to the handing over or the failure that ends it. */
  lemma NextAlone(source: seq<Event>, x: Shared, c: Choice)
    requires Sound(source, x, Entering)
    ensures Alone(source, x, Entering, c)
         == if c.cancelled then Alone(source, x, FailLocking, c)
            else if x.terminal then Moved(x, Returned(Closed))
            else if x.firstHeld
            then var m := Deliver(source, x.(firstHeld := false), 0); Alone(source, m.shared, m.call, c)
            else if c.fails || x.next == |source| then Alone(source, x, FailLocking, c)
            else var m := Deliver(source, x.(next := x.next + 1), x.next); Alone(source, m.shared, m.call, c)
  {
    var m1 := Step(source, x, Entering, c);
    assert Alone(source, x, Entering, c) == Alone(source, m1.shared, m1.call, c);
    if !c.cancelled {
      var m2 := Step(source, m1.shared, m1.call, c);
      assert Alone(source, m1.shared, m1.call, c) == Alone(source, m2.shared, m2.call, c);
      if m2.call.Reading? {
        var m3 := Step(source, m2.shared, m2.call, c);
        assert Alone(source, m2.shared, m2.call, c) == Alone(source, m3.shared, m3.call, c);
      }
    }
  }

  lemma CloseAlone(source: seq<Event>, x: Shared, c: Choice)
    requires Sound(source, x, CloseLocking)
    ensures Alone(source, x, CloseLocking, c)
         == (var y := if x.terminal then x else RecordOnce(x.(terminal := true), FAILURE);
             Moved(y.(closes := y.closes + 1), Returned(CloseDone)))
  {
    var m1 := Step(source, x, CloseLocking, c);
    var m2 := Step(source, m1.shared, m1.call, c);
    assert Alone(source, x, CloseLocking, c) == Alone(source, m1.shared, m1.call, c)
        == Alone(source, m2.shared, m2.call, c);
    if !m2.call.Returned? {
      var m3 := Step(source, m2.shared, m2.call, c);
      assert Alone(source, m2.shared, m2.call, c) == Alone(source, m3.shared, m3.call, c) == m3;
    }
  }
}
