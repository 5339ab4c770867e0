/** When concurrent discovery can still come to an end.  Shutdown is meant to be delayed at worst; a reader that leaves
    without taking an entry off the queue can prevent it. */
module DiscoverProgress {
  import opened Collections
  import opened Options
  import opened Digest
  import opened Discover

  /** A reader that can still come back to the queue once the feeder is done. */
  predicate Free(r: Reader) {
    match r
    case TimedOut => false
    case Exited => false
    case Taken(entry) => entry.Path?
    case Settling(last) => !last
    case _ => true
  }

  predicate IsSentinel(e: Entry) {
    e.Sentinel?
  }

  function Sentinels(s: State): nat {
    Count(IsSentinel, s.shared.queue)
  }

  function FreeReaders(s: State): nat {
    Count(Free, s.readers)
  }

  /** Entries in the queue once the feeder, told to stop, has put the path it is about to put. */
  function Entries(d: Discovery, s: State): nat {
    if s.main.Feeding? && s.main.armed && s.main.next < |d.admitted| && |s.shared.queue| < d.capacity
    then |s.shared.queue| + 1 else |s.shared.queue|
  }

  /** Sentinels the calling thread will still put if nobody makes room: it gives up at a full queue. */
  function ToPut(d: Discovery, s: State): nat {
    var left := if s.main.Signalling? then s.main.left else if BeforeDone(s.main) then d.readers else 0;
    var room := if Entries(d, s) < d.capacity then d.capacity - Entries(d, s) else 0;
    if left < room then left else room
  }

  /** Every sentinel takes one free reader away, and a path needs one. */
  predicate Served(d: Discovery, s: State) {
    Sentinels(s) + ToPut(d, s) <= FreeReaders(s) && (Entries(d, s) > 0 ==> FreeReaders(s) > 0)
  }

  /** The readers are leaving, and too few will come back. */
  ghost predicate Stranded(d: Discovery, s: State) {
    !AfterJoin(s.main) && Leaving(s.shared) && !Served(d, s)
  }

  function Leaving(sh: Shared): bool {
    sh.feederDone || sh.stop
  }

  predicate Ended(s: State) {
    s.main.Returned? || s.main.Raised?
  }

  // -- What else holds in reachable states -------------------------------------------------------------

  predicate BeforeDone(m: Main) {
    m.Feeding? || m.FeedFailing? || m.FeedHalting? || m.Wrapping?
  }

  /** Sentinels are at the end of the queue, and there are none before the feeder is done. */
  ghost predicate Ordered(d: Discovery, s: State) {
    && d.capacity > 0 && d.readers > 0
    && (s.shared.feederDone <==> !BeforeDone(s.main))
    && (s.main.Feeding? ==> s.main.next <= |d.admitted|)
    && (s.main.Reaping? ==> s.main.next <= d.readers)
    && (forall i, j :: 0 <= i < j < |s.shared.queue| && s.shared.queue[i].Sentinel? ==> s.shared.queue[j].Sentinel?)
    && (!s.shared.feederDone ==> NoSentinels(s))
  }

  ghost predicate NoSentinels(s: State) {
    && (forall i :: 0 <= i < |s.shared.queue| ==> s.shared.queue[i].Path?)
    && (forall i :: 0 <= i < |s.readers| ==> !Leaves(s.readers[i]))
    && (!s.shared.stop ==> forall i :: 0 <= i < |s.readers| ==> !s.readers[i].Exited?)
  }

  predicate Leaves(r: Reader) {
    (r.Taken? && r.entry.Sentinel?) || (r.Settling? && r.last)
  }

  ghost predicate Live(d: Discovery, s: State) {
    Inv(d, s) && Ordered(d, s)
  }

  lemma ReadOrders(d: Discovery, s: State, i: nat)
    requires i < |s.readers| && Ordered(d, s)
    ensures Ordered(d, Do(d, s, Read(i)))
  {
    var t := Do(d, s, Read(i));
    assert t.shared.queue == s.shared.queue || (s.shared.queue != [] && t.shared.queue == s.shared.queue[1..]);
    if !s.shared.feederDone {
      ReadSeesNoSentinel(d, s, i);
    }
  }

  lemma ReadSeesNoSentinel(d: Discovery, s: State, i: nat)
    requires i < |s.readers| && !s.shared.feederDone && NoSentinels(s)
    ensures NoSentinels(Do(d, s, Read(i)))
  {
  }

  lemma MoveOrders(d: Discovery, s: State)
    requires CanMove(s) && Ordered(d, s)
    ensures Ordered(d, Do(d, s, Move))
  {
  }

  lemma StepOrders(d: Discovery, s: State, step: Action)
    requires Enabled(s, step) && Ordered(d, s)
    ensures Ordered(d, Do(d, s, step))
  {
    match step
    case Read(i) => ReadOrders(d, s, i);
    case Move => MoveOrders(d, s);
    case _ =>
  }

  lemma {:induction false} RunLive(d: Discovery, run: seq<State>, i: nat)
    requires IsRun(d, run) && i < |run|
    ensures Live(d, run[i])
  {
    RunInv(d, run, i);
    if i > 0 {
      RunLive(d, run, i - 1);
      assert StepAt(d, run, i - 1);
      var step :| Enabled(run[i - 1], step) && run[i] == Do(d, run[i - 1], step);
      StepOrders(d, run[i - 1], step);
    }
  }

  // -- Counting ----------------------------------------------------------------------------------------

  lemma {:induction false} CountFirst<T>(p: T -> bool, s: seq<T>)
    requires s != []
    ensures Count(p, s) == (if p(s[0]) then 1 else 0) + Count(p, s[1..])
  {
    if |s| > 1 {
      CountFirst(p, s[..|s| - 1]);
      assert s[..|s| - 1][1..] == s[1..][..|s| - 2];
    } else {
      assert s[..0] == [] && s[1..] == [];
    }
  }

  lemma {:induction false} CountAll<T>(p: T -> bool, s: seq<T>)
    ensures Count(p, s) == |s| <==> forall i :: 0 <= i < |s| ==> p(s[i])
    ensures Count(p, s) <= |s|
  {
    if s != [] {
      CountAll(p, s[..|s| - 1]);
    }
  }

  /** How one reader's step changes the two counts. */
  lemma ReadCounts(d: Discovery, s: State, i: nat)
    requires i < |s.readers| && Leaving(s.shared)
    ensures var t, r := Do(d, s, Read(i)), s.readers[i];
      if r.Idle? && s.shared.queue == [] then FreeReaders(t) == FreeReaders(s) - 1 && Sentinels(t) == Sentinels(s)
      else if r.Idle? && s.shared.queue[0].Sentinel? then
        FreeReaders(t) == FreeReaders(s) - 1 && Sentinels(t) == Sentinels(s) - 1
      else FreeReaders(t) == FreeReaders(s) && Sentinels(t) == Sentinels(s)
  {
    var r := ReaderStep(d, s.shared, s.readers[i]);
    CountUpdate(Free, s.readers, i, r.reader);
    if s.shared.queue != [] {
      CountFirst(IsSentinel, s.shared.queue);
    }
  }

  // -- A stranded discovery never ends -----------------------------------------------------------------

  /** Whatever anybody does, a stranded discovery stays stranded. */
  lemma StrandedForever(d: Discovery, s: State, step: Action)
    requires Live(d, s) && Stranded(d, s) && Enabled(s, step)
    ensures Stranded(d, Do(d, s, step))
  {
    match step
    case Cancel =>
    case Read(i) => StrandedRead(d, s, i);
    case ReadFault(i) => CountUpdate(Free, s.readers, i, Raising(ReadFailed));
    case Move => StrandedMove(d, s);
  }

  lemma StrandedRead(d: Discovery, s: State, i: nat)
    requires i < |s.readers| && Stranded(d, s)
    ensures Stranded(d, Do(d, s, Read(i)))
  {
    CountPositive(s, i);
    ReadCounts(d, s, i);
    CountZero(IsSentinel, s.shared.queue);
  }

  lemma StrandedMove(d: Discovery, s: State)
    requires Live(d, s) && Stranded(d, s) && CanMove(s)
    ensures Stranded(d, Do(d, s, Move))
  {
    if BeforeDone(s.main) {
      FeederChangesNothing(d, s);
    } else {
      StrandedSignals(d, s);
    }
  }

  /** Told to stop, the feeder comes to its end without changing what readers will be needed for. */
  lemma FeederChangesNothing(d: Discovery, s: State)
    requires BeforeDone(s.main) && s.shared.stop
    ensures var t := Do(d, s, Move);
      Served(d, t) == Served(d, s) && !AfterJoin(t.main) && Leaving(t.shared)
  {
    if s.main.Feeding? { FeederPuts(d, s); } else { FeederWraps(d, s); }
  }

  lemma FeederPuts(d: Discovery, s: State)
    requires s.main.Feeding? && s.shared.stop
    ensures var t := Do(d, s, Move); Served(d, t) == Served(d, s) && BeforeDone(t.main) && t.shared.stop
  {
    if s.main.next < |d.admitted| {
      CountSnoc(IsSentinel, s.shared.queue, Path(d.admitted[s.main.next]));
    }
  }

  lemma FeederWraps(d: Discovery, s: State)
    requires BeforeDone(s.main) && !s.main.Feeding?
    ensures var t := Do(d, s, Move);
      Served(d, t) == Served(d, s) && !AfterJoin(t.main) && (s.shared.stop ==> t.shared.stop)
  {
  }

  /** At the join a stranded discovery waits: something is queued. */
  lemma StrandedSignals(d: Discovery, s: State)
    requires Live(d, s) && Stranded(d, s) && !BeforeDone(s.main) && CanMove(s)
    ensures Stranded(d, Do(d, s, Move))
  {
    CountZero(IsSentinel, s.shared.queue);
    if s.main.Signalling? {
      SignalChangesNothing(d, s);
    }
  }

  /** Putting a sentinel, or giving up at a full queue, was already counted. */
  lemma SignalChangesNothing(d: Discovery, s: State)
    requires s.main.Signalling?
    ensures var t := Do(d, s, Move);
      Served(d, t) == Served(d, s) && !AfterJoin(t.main) && t.shared.feederDone == s.shared.feederDone
  {
    CountSnoc(IsSentinel, s.shared.queue, Sentinel);
  }

  lemma CountSnoc<T>(p: T -> bool, s: seq<T>, x: T)
    ensures Count(p, s + [x]) == Count(p, s) + (if p(x) then 1 else 0)
  {
    assert (s + [x])[..|s|] == s;
  }

  lemma CountPositive(s: State, i: nat)
    requires i < |s.readers|
    ensures Free(s.readers[i]) ==> FreeReaders(s) > 0
  {
    CountZero(Free, s.readers);
  }

  // -- Otherwise there is always a step that brings the end nearer ----------------------------------------

  const ITEM := 13

  function ReaderCost(leaving: bool, r: Reader): nat {
    match r
    case Taken(_) => 12
    case Checking(_) => 11
    case Reading(_) => 10
    case Rechecking(_, _) => 9
    case Storing(_, _) => 7
    case Raising(_) => 7
    case Halting => 6
    case Settling(_) => 4
    case TimedOut => if leaving then 1 else 3
    case Idle => 2
    case Exited => 0
  }

  function ReaderCosts(leaving: bool): Reader -> nat {
    r => ReaderCost(leaving, r)
  }

  function MainCost(d: Discovery, stop: bool, m: Main): int {
    var joining := d.readers + 4;
    var wrapping := d.readers * (ITEM + 1) + joining + 2;
    match m
    case Feeding(k, armed) => (|d.admitted| - k) * (ITEM + 3) + wrapping + 3 + if armed == stop then 1 else 0
    case FeedFailing => wrapping + 2
    case FeedHalting => wrapping + 1
    case Wrapping => wrapping
    case Signalling(n) => n * (ITEM + 1) + joining + 1
    case Joining => joining
    case Closing => d.readers + 3
    case Reaping(j) => d.readers - j + 1
    case _ => 0
  }

  function Left(d: Discovery, s: State): int {
    ITEM * |s.shared.queue| + Sum(ReaderCosts(Leaving(s.shared)), s.readers) + MainCost(d, s.shared.stop, s.main)
  }

  /** A reader pays for its step, unless it has exited or would only poll an empty queue. */
  lemma ReaderPays(d: Discovery, sh: Shared, r: Reader)
    requires !r.Exited? && (r.Idle? && sh.queue == [] ==> Leaving(sh))
    ensures var q := ReaderStep(d, sh, r);
      && ReaderCost(Leaving(sh), q.reader) + ITEM * |q.shared.queue| + (if q.shared.stop != sh.stop then 1 else 0)
         < ReaderCost(Leaving(sh), r) + ITEM * |sh.queue|
      && (Leaving(sh) ==> Leaving(q.shared))
  {
  }

  lemma LeavingIsCheaper(was: bool, now: bool, readers: seq<Reader>)
    requires was ==> now
    ensures Sum(ReaderCosts(now), readers) <= Sum(ReaderCosts(was), readers)
  {
    SumMonotone(ReaderCosts(now), ReaderCosts(was), readers);
  }

  lemma ReadNears(d: Discovery, s: State, i: nat)
    requires i < |s.readers| && !s.readers[i].Exited?
    requires s.readers[i].Idle? && s.shared.queue == [] ==> Leaving(s.shared)
    ensures Left(d, Do(d, s, Read(i))) < Left(d, s)
  {
    var r := ReaderStep(d, s.shared, s.readers[i]);
    ReaderPays(d, s.shared, s.readers[i]);
    SumUpdate(ReaderCosts(Leaving(s.shared)), s.readers, i, r.reader);
    LeavingIsCheaper(Leaving(s.shared), Leaving(r.shared), s.readers[i := r.reader]);
  }

  lemma MoveNears(d: Discovery, s: State)
    requires CanMove(s) && !Ended(s) && d.capacity > 0 && |s.readers| == d.readers
    requires s.main.Feeding? ==> (s.shared.queue == [] || s.shared.stop) && s.main.next <= |d.admitted|
    requires s.main.Reaping? ==> s.main.next <= d.readers
    ensures Left(d, Do(d, s, Move)) < Left(d, s)
  {
    var m := MainStep(d, s.shared, s.main);
    MainPays(d, s.shared, s.main);
    LeavingIsCheaper(Leaving(s.shared), Leaving(m.shared), s.readers);
  }

  lemma MainPays(d: Discovery, sh: Shared, m: Main)
    requires d.capacity > 0 && !m.Returned? && !m.Raised?
    requires m.Feeding? ==> (sh.queue == [] || sh.stop) && m.next <= |d.admitted|
    requires m.Reaping? ==> m.next <= d.readers
    ensures var n := MainStep(d, sh, m);
      && ITEM * |n.shared.queue| + MainCost(d, n.shared.stop, n.main) < ITEM * |sh.queue| + MainCost(d, sh.stop, m)
      && (Leaving(sh) ==> Leaving(n.shared))
  {
  }

  /** Before the feeder is done every reader is there, and none is about to leave. */
  ghost predicate Manned(s: State) {
    forall i :: 0 <= i < |s.readers| ==> !s.readers[i].Exited? && (s.shared.stop ==> !s.readers[i].TimedOut?)
  }

  /** States from which the end can be reached. */
  ghost predicate Endable(d: Discovery, s: State) {
    !Stranded(d, s)
  }

  predicate Smooth(step: Action) {
    step.Read? || step.Move?
  }

  ghost predicate Nearer(d: Discovery, s: State, step: Action) {
    && Enabled(s, step) && Smooth(step) && Endable(d, Do(d, s, step))
    && Left(d, Do(d, s, step)) < Left(d, s)
  }

  /** A reader's step does not push another one out when time-outs are dealt with first. */
  lemma ReadMans(d: Discovery, s: State, i: nat)
    requires i < |s.readers| && Ordered(d, s) && !s.shared.feederDone && Manned(s)
    requires s.readers[i].TimedOut? || ((forall j :: 0 <= j < |s.readers| ==> !s.readers[j].TimedOut?)
                                        && (s.readers[i].Idle? ==> s.shared.queue != []))
    ensures Manned(Do(d, s, Read(i)))
  {
    var t := Do(d, s, Read(i));
    forall j | 0 <= j < |t.readers| ensures !t.readers[j].Exited? && (t.shared.stop ==> !t.readers[j].TimedOut?) {
      assert j != i ==> t.readers[j] == s.readers[j];
    }
  }

  /** While nothing stops the readers: time-outs first, then whoever holds an entry, then the queue, then the feeder. */
  lemma FeedingNears(d: Discovery, s: State) returns (step: Action)
    requires Live(d, s) && !Leaving(s.shared)
    ensures Nearer(d, s, step)
  {
    assert Manned(s);
    if i: nat :| i < |s.readers| && s.readers[i].TimedOut? {
      step := Read(i);
      FeedingRead(d, s, i);
    } else if i: nat :| i < |s.readers| && !s.readers[i].Idle? {
      step := Read(i);
      FeedingRead(d, s, i);
    } else if s.shared.queue != [] {
      step := Read(0);
      FeedingRead(d, s, 0);
    } else {
      step := Move;
      MoveNears(d, s);
      FeederLeavesMany(d, s);
    }
  }

  lemma FeedingRead(d: Discovery, s: State, i: nat)
    requires i < |s.readers| && Live(d, s) && !Leaving(s.shared)
    requires s.readers[i].TimedOut? || ((forall j :: 0 <= j < |s.readers| ==> !s.readers[j].TimedOut?)
                                        && (s.readers[i].Idle? ==> s.shared.queue != []))
    ensures Nearer(d, s, Read(i))
  {
    ReadNears(d, s, i);
    ReadMans(d, s, i);
    ReadOrders(d, s, i);
    MannedServes(d, Do(d, s, Read(i)));
  }

  /** With every reader there and none about to leave, there is one for every sentinel to come. */
  lemma MannedServes(d: Discovery, s: State)
    requires Ordered(d, s) && !s.shared.feederDone && |s.readers| == d.readers && Manned(s)
    ensures Endable(d, s)
  {
    CountAll(Free, s.readers);
    CountZero(IsSentinel, s.shared.queue);
  }

  /** With every reader idle and nothing queued, so there is after the feeder's step. */
  lemma FeederLeavesMany(d: Discovery, s: State)
    requires Ordered(d, s) && !s.shared.feederDone && |s.readers| == d.readers && s.shared.queue == []
    requires forall i :: 0 <= i < |s.readers| ==> s.readers[i].Idle?
    ensures Endable(d, Do(d, s, Move))
  {
    CountAll(Free, s.readers);
    CountZero(IsSentinel, Do(d, s, Move).shared.queue);
  }

  /** Once the readers are leaving, the calling thread goes straight to the join. */
  lemma StoppedNears(d: Discovery, s: State) returns (step: Action)
    requires Live(d, s) && BeforeDone(s.main) && s.shared.stop && Endable(d, s)
    ensures Nearer(d, s, step)
  {
    step := Move;
    MoveNears(d, s);
    FeederChangesNothing(d, s);
  }

  lemma SignallingNears(d: Discovery, s: State) returns (step: Action)
    requires Live(d, s) && s.main.Signalling? && Endable(d, s)
    ensures Nearer(d, s, step)
  {
    step := Move;
    MoveNears(d, s);
    SignalChangesNothing(d, s);
  }

  lemma JoiningNears(d: Discovery, s: State) returns (step: Action)
    requires Live(d, s) && s.main.Joining? && Endable(d, s)
    ensures Nearer(d, s, step)
  {
    if s.shared.unfinished == 0 {
      step := Move;
      MoveNears(d, s);
    } else if i: nat :| i < |s.readers| && Holding(s.readers[i]) {
      step := Read(i);
      ReadNears(d, s, i);
      ReadCounts(d, s, i);
    } else {
      CountZero(Holding, s.readers);
      CountZero(Free, s.readers);
      var i: nat :| i < |s.readers| && Free(s.readers[i]);
      step := Read(i);
      ReadNears(d, s, i);
      IdleTakes(d, s, i);
    }
  }

  lemma IdleTakes(d: Discovery, s: State, i: nat)
    requires i < |s.readers| && s.readers[i].Idle? && s.shared.queue != []
    requires Ordered(d, s) && s.main.Joining? && Served(d, s)
    ensures Served(d, Do(d, s, Read(i)))
  {
    ReadCounts(d, s, i);
    SentinelsLast(s.shared.queue);
  }

  /** Behind a sentinel there are only sentinels. */
  lemma SentinelsLast(queue: seq<Entry>)
    requires forall i, j :: 0 <= i < j < |queue| && queue[i].Sentinel? ==> queue[j].Sentinel?
    ensures queue != [] && queue[0].Sentinel? ==> Count(IsSentinel, queue[1..]) == |queue| - 1
  {
    if queue != [] && queue[0].Sentinel? {
      CountAll(IsSentinel, queue[1..]);
    }
  }

  lemma ClosingNears(d: Discovery, s: State) returns (step: Action)
    requires Live(d, s) && AfterJoin(s.main) && !Ended(s)
    ensures Nearer(d, s, step)
  {
    CountZero(Holding, s.readers);
    if s.main.Reaping? && s.main.next < |s.readers| && !s.readers[s.main.next].Exited? {
      step := Read(s.main.next);
      assert !Holding(s.readers[s.main.next]);
      ReadNears(d, s, s.main.next);
    } else {
      step := Move;
      MoveNears(d, s);
    }
  }

  lemma LeftIsNat(d: Discovery, s: State)
    requires Ordered(d, s)
    ensures Left(d, s) >= 0
  {
    if s.main.Feeding? {
      assert (|d.admitted| - s.main.next) * (ITEM + 3) >= 0;
    }
  }

  // -- Exactly when discovery can end ---------------------------------------------------------------------

  ghost predicate SmoothNext(d: Discovery, s: State, t: State) {
    exists step :: Enabled(s, step) && Smooth(step) && t == Do(d, s, step)
  }

  ghost predicate SmoothAt(d: Discovery, path: seq<State>, i: nat) {
    i + 1 < |path| && SmoothNext(d, path[i], path[i + 1])
  }

  /** A continuation in which nobody cancels and no read fails that the files allow. */
  ghost predicate Continuation(d: Discovery, path: seq<State>) {
    path != [] && forall i: nat :: i + 1 < |path| ==> SmoothAt(d, path, i)
  }

  ghost predicate CanEnd(d: Discovery, s: State) {
    exists path: seq<State> :: Continuation(d, path) && path[0] == s && Ended(path[|path| - 1])
  }

  lemma {:induction false} Finish(d: Discovery, s: State) returns (path: seq<State>)
    requires Live(d, s) && Endable(d, s)
    ensures Continuation(d, path) && path[0] == s && Ended(path[|path| - 1])
    decreases Left(d, s)
  {
    if Ended(s) {
      path := [s];
    } else {
      var step := NextStep(d, s);
      var t := Do(d, s, step);
      StepKeeps(d, s, step);
      StepOrders(d, s, step);
      LeftIsNat(d, t);
      var rest := Finish(d, t);
      path := Prepend(d, s, rest, step);
    }
  }

  lemma NextStep(d: Discovery, s: State) returns (step: Action)
    requires Live(d, s) && Endable(d, s) && !Ended(s)
    ensures Nearer(d, s, step)
  {
    if !Leaving(s.shared) {
      step := FeedingNears(d, s);
    } else if BeforeDone(s.main) {
      step := StoppedNears(d, s);
    } else if s.main.Signalling? {
      step := SignallingNears(d, s);
    } else if s.main.Joining? {
      step := JoiningNears(d, s);
    } else {
      step := ClosingNears(d, s);
    }
  }

  lemma Prepend(d: Discovery, s: State, rest: seq<State>, step: Action) returns (path: seq<State>)
    requires Continuation(d, rest) && Enabled(s, step) && Smooth(step) && rest[0] == Do(d, s, step)
    ensures Continuation(d, path) && path == [s] + rest
  {
    path := [s] + rest;
    forall i: nat | i + 1 < |path| ensures SmoothAt(d, path, i) {
      if i > 0 {
        assert SmoothAt(d, rest, i - 1);
      }
    }
  }

  lemma {:induction false} StrandedPath(d: Discovery, path: seq<State>, i: nat)
    requires Continuation(d, path) && i < |path| && Live(d, path[0]) && Stranded(d, path[0])
    ensures Live(d, path[i]) && Stranded(d, path[i])
  {
    if i > 0 {
      StrandedPath(d, path, i - 1);
      assert SmoothAt(d, path, i - 1);
      var step :| Enabled(path[i - 1], step) && Smooth(step) && path[i] == Do(d, path[i - 1], step);
      StrandedForever(d, path[i - 1], step);
      StepKeeps(d, path[i - 1], step);
      StepOrders(d, path[i - 1], step);
    }
  }

  /** From any reachable state - failing and cancelled runs included - the end can still be reached exactly when the
      discovery is not stranded: while feeder and readers are undisturbed always, later when a free reader is left for
      every sentinel queued or still to be put, and at least one for whatever is queued. */
  lemma CanEndIffNotStranded(d: Discovery, run: seq<State>, i: nat)
    requires IsRun(d, run) && i < |run|
    ensures CanEnd(d, run[i]) <==> !Stranded(d, run[i])
  {
    RunLive(d, run, i);
    if Endable(d, run[i]) {
      var path := Finish(d, run[i]);
    } else if CanEnd(d, run[i]) {
      var path: seq<State> :| Continuation(d, path) && path[0] == run[i] && Ended(path[|path| - 1]);
      StrandedPath(d, path, |path| - 1);
    }
  }

  /** As long as the feeder is not done and nothing has stopped the readers, the end can be reached. */
  lemma FeedingCanEnd(d: Discovery, run: seq<State>, i: nat)
    requires IsRun(d, run) && i < |run| && !run[i].shared.feederDone && !run[i].shared.stop
    ensures CanEnd(d, run[i])
  {
    CanEndIffNotStranded(d, run, i);
  }

  /** At the join: one free reader for every queued sentinel, and at least one for whatever is queued. */
  lemma JoinEndsIff(d: Discovery, run: seq<State>, i: nat)
    requires IsRun(d, run) && i < |run| && run[i].main.Joining?
    ensures CanEnd(d, run[i]) <==>
      Sentinels(run[i]) <= FreeReaders(run[i]) && (run[i].shared.queue != [] ==> FreeReaders(run[i]) > 0)
  {
    RunLive(d, run, i);
    CanEndIffNotStranded(d, run, i);
  }

  // -- Normal return is reachable ---------------------------------------------------------------------------

  /** Nothing was cancelled and nothing has failed. */
  ghost predicate Calm(s: State) {
    && !s.shared.cancel && s.shared.errors == []
    && !s.main.FeedFailing? && !s.main.FeedHalting? && !s.main.Raised?
    && (AfterJoin(s.main) || !s.shared.stop)
    && (forall i :: 0 <= i < |s.readers| ==> !s.readers[i].Raising? && !s.readers[i].Halting?)
  }

  /** Entries on their way are admitted paths. */
  ghost predicate Admitted(d: Discovery, s: State) {
    && (forall i :: 0 <= i < |s.shared.queue| ==> EntryAdmitted(d, s.shared.queue[i]))
    && (forall i :: 0 <= i < |s.readers| ==> ReaderAdmitted(d, s.readers[i]))
  }

  predicate EntryAdmitted(d: Discovery, e: Entry) {
    e.Path? ==> e.path in d.admitted
  }

  predicate ReaderAdmitted(d: Discovery, r: Reader) {
    && (r.Taken? ==> EntryAdmitted(d, r.entry))
    && (r.Checking? || r.Reading? ==> r.path in d.admitted)
  }

  ghost predicate Readable(d: Discovery) {
    forall p :: p in d.admitted ==> d.read(p).Some?
  }

  lemma CalmRead(d: Discovery, s: State, i: nat)
    requires i < |s.readers| && Readable(d) && Live(d, s) && Calm(s) && Admitted(d, s)
    ensures Calm(Do(d, s, Read(i))) && Admitted(d, Do(d, s, Read(i)))
  {
    if AfterJoin(s.main) {
      CountZero(Holding, s.readers);
      assert !Holding(s.readers[i]) && s.shared.queue == [];
    }
  }

  lemma CalmMove(d: Discovery, s: State)
    requires CanMove(s) && Live(d, s) && Calm(s) && Admitted(d, s)
    ensures Calm(Do(d, s, Move)) && Admitted(d, Do(d, s, Move))
  {
  }

  lemma {:induction false} CalmPath(d: Discovery, path: seq<State>, i: nat)
    requires Continuation(d, path) && i < |path| && Readable(d)
    requires Live(d, path[0]) && Calm(path[0]) && Admitted(d, path[0])
    ensures Live(d, path[i]) && Calm(path[i]) && Admitted(d, path[i])
  {
    if i > 0 {
      CalmPath(d, path, i - 1);
      assert SmoothAt(d, path, i - 1);
      var step :| Enabled(path[i - 1], step) && Smooth(step) && path[i] == Do(d, path[i - 1], step);
      StepKeeps(d, path[i - 1], step);
      StepOrders(d, path[i - 1], step);
      if step.Read? { CalmRead(d, path[i - 1], step.i); } else { CalmMove(d, path[i - 1]); }
    }
  }

  /** With readable files and no cancellation some run returns normally. */
  lemma NormalReturnIsReachable(d: Discovery, s: State) returns (run: seq<State>)
    requires Init(d, s) && !s.shared.cancel && Readable(d)
    ensures IsRun(d, run) && run[0] == s && run[|run| - 1].main.Returned?
  {
    assert IsRun(d, [s]);
    RunLive(d, [s], 0);
    run := Finish(d, s);
    CalmPath(d, run, |run| - 1);
    forall i: nat | i + 1 < |run| ensures StepAt(d, run, i) {
      assert SmoothAt(d, run, i);
    }
  }

  // -- It can really be stranded -----------------------------------------------------------------------------

  function OneFile(data: Bytes): Discovery {
    Discovery(["a"], p => Some(data), b => 0, 1, 1)
  }

  function At(queue: seq<Entry>, done: bool, m: Main): State {
    State(Shared(queue, |queue|, map[], done, false, false, []), [TimedOut], m)
  }

  lemma MoveOnce(d: Discovery, run: seq<State>, next: State) returns (longer: seq<State>)
    requires IsRun(d, run) && CanMove(run[|run| - 1]) && next == Do(d, run[|run| - 1], Move)
    ensures IsRun(d, longer) && longer[|longer| - 1] == next
  {
    longer := run + [next];
    forall i: nat | i + 1 < |longer| ensures StepAt(d, longer, i) {
      if i + 1 < |run| {
        assert StepAt(d, run, i);
      } else {
        assert next == Do(d, longer[i], Move);
      }
    }
  }

  /** The reader looks into the empty queue first. */
  lemma LookTooEarly(data: Bytes) returns (run: seq<State>)
    ensures IsRun(OneFile(data), run) && run[|run| - 1] == At([], false, Feeding(0, false))
  {
    var d := OneFile(data);
    var s := State(Shared([], 0, map[], false, false, false, []), [Idle], Feeding(0, false));
    var t := At([], false, Feeding(0, false));
    run := [s, t];
    assert t == Do(d, s, Read(0));
    assert StepAt(d, run, 0);
  }

  /** One file, one reader, room for one entry: the reader looks into the empty queue, then the file is queued and the
      feeder is done, and the reader leaves.  The join never ends, though nothing failed. */
  lemma StrandingIsReachable(data: Bytes) returns (d: Discovery, run: seq<State>)
    ensures d == OneFile(data) && IsRun(d, run) && Stranded(d, run[|run| - 1]) && !CanEnd(d, run[|run| - 1])
  {
    d, run := JoinTooLate(data);
    LateIsStranded(data);
    CanEndIffNotStranded(d, run, |run| - 1);
  }

  lemma JoinTooLate(data: Bytes) returns (d: Discovery, run: seq<State>)
    ensures d == OneFile(data) && IsRun(d, run) && run[|run| - 1] == At([Path("a")], true, Joining)
  {
    d := OneFile(data);
    run := LookTooEarly(data);
    run := MoveOnce(d, run, At([], false, Feeding(0, true)));
    run := MoveOnce(d, run, At([Path("a")], false, Feeding(1, false)));
    run := MoveOnce(d, run, At([Path("a")], false, Wrapping));
    run := MoveOnce(d, run, At([Path("a")], true, Signalling(1)));
    run := MoveOnce(d, run, At([Path("a")], true, Joining));
  }

  lemma LateIsStranded(data: Bytes)
    ensures Stranded(OneFile(data), At([Path("a")], true, Joining))
  {
    CountZero(Free, [TimedOut]);
  }
}
