/** Concurrent corpus discovery: one feeder, many readers, one bounded queue; equal to the sequential form. */
module Discover {
  import opened Collections
  import opened Options
  import opened Digest

  datatype FileItem = FileItem(path: string, size: nat, crc: int, data: Bytes)

  /** One discovery: the sorted admitted paths, what reading each yields (nothing when it cannot be read or
      exceeds the size bound), the hint function, and the shared budget. */
  datatype Discovery = Discovery(
    admitted: seq<string>, read: string -> Option<Bytes>, crc: Bytes -> int, capacity: nat, readers: nat)

  function ItemOf(d: Discovery, path: string, data: Bytes): FileItem {
    FileItem(path, |data|, d.crc(data), data)
  }

  /** `discover`, the sequential reference: every admitted file in order, or a failure. */
  function Sequential(d: Discovery, paths: seq<string>): Option<seq<FileItem>> {
    if paths == [] then Some([])
    else
      var init := Sequential(d, paths[..|paths| - 1]);
      var last := paths[|paths| - 1];
      if init.None? || d.read(last).None? then None else Some(init.value + [ItemOf(d, last, d.read(last).value)])
  }

  // -- Threads -----------------------------------------------------------------------------------

  datatype Failure = Cancelled | ReadFailed

  datatype Entry = Path(path: string) | Sentinel

  datatype Reader =
    | Idle
    | TimedOut
    | Taken(entry: Entry)
    | Checking(path: string)
    | Reading(path: string)
    | Rechecking(path: string, data: Bytes)
    | Storing(path: string, data: Bytes)
    | Raising(error: Failure)
    | Halting
    | Settling(last: bool)
    | Exited

  /** The calling thread feeds, signals shutdown, joins the queue, joins the readers. */
  datatype Main =
    | Feeding(next: nat, armed: bool)
    | FeedFailing
    | FeedHalting
    | Wrapping
    | Signalling(left: nat)
    | Joining
    | Closing
    | Reaping(next: nat)
    | Returned
    | Raised(error: Failure)

  datatype Shared = Shared(queue: seq<Entry>, unfinished: int, results: map<string, Bytes>, feederDone: bool,
      stop: bool, cancel: bool,
                           errors: seq<Failure>)

  datatype State = State(shared: Shared, readers: seq<Reader>, main: Main)

  ghost predicate Init(d: Discovery, s: State) {
    && d.capacity > 0 && d.readers > 0
    && s.shared == Shared([], 0, map[], false, false, s.shared.cancel, []) && s.main == Feeding(0, false)
    && |s.readers| == d.readers && forall i :: 0 <= i < d.readers ==> s.readers[i] == Idle
  }

  // -- Steps -------------------------------------------------------------------------------------

  datatype Stepped = Stepped(shared: Shared, reader: Reader)

  datatype Moved = Moved(shared: Shared, main: Main)

  function Record(sh: Shared, e: Failure): Shared {
    if sh.errors == [] then sh.(errors := [e]) else sh
  }

  function Halt(sh: Shared): Shared {
    sh.(stop := true)
  }

  function ReaderStep(d: Discovery, sh: Shared, r: Reader): Stepped {
    match r
    case Idle =>
      if sh.queue != [] then Stepped(sh.(queue := sh.queue[1..]), Taken(sh.queue[0])) else Stepped(sh, TimedOut)
    case TimedOut => Stepped(sh, if sh.feederDone || sh.stop then Exited else Idle)
    case Taken(entry) =>
      Stepped(sh, if entry.Sentinel? then Settling(true) else if sh.stop then Settling(false) else Checking(entry.path))
    case Checking(path) =>
      if sh.stop || sh.cancel then Stepped(Halt(sh), Raising(Cancelled)) else Stepped(sh, Reading(path))
    case Reading(path) =>
      Stepped(sh, if d.read(path).None? then Raising(ReadFailed) else Rechecking(path, d.read(path).value))
    case Rechecking(path, data) =>
      if sh.stop || sh.cancel then Stepped(Halt(sh), Raising(Cancelled)) else Stepped(sh, Storing(path, data))
    case Storing(path, data) => Stepped(sh.(results := sh.results[path := data]), Settling(false))
    case Raising(e) => Stepped(Record(sh, e), Halting)
    case Halting => Stepped(Halt(sh), Settling(false))
    case Settling(last) => Stepped(sh.(unfinished := sh.unfinished - 1), if last then Exited else Idle)
    case Exited => Stepped(sh, Exited)
  }

  function PutEntry(sh: Shared, e: Entry): Shared {
    sh.(queue := sh.queue + [e], unfinished := sh.unfinished + 1)
  }

  /** The calling thread's own steps; joining waits are in `CanMove`. */
  function MainStep(d: Discovery, sh: Shared, m: Main): Moved {
    match m
    case Feeding(k, armed) =>
      if k >= |d.admitted| then Moved(sh, Wrapping)
      else if !armed then
        if sh.stop then Moved(sh, Wrapping)
        else if sh.cancel then Moved(sh, FeedFailing) else Moved(sh, Feeding(k, true))
      else if |sh.queue| < d.capacity then Moved(PutEntry(sh, Path(d.admitted[k])), Feeding(k + 1, false))
      else Moved(sh, Feeding(k, false))
    case FeedFailing => Moved(Record(sh, Cancelled), FeedHalting)
    case FeedHalting => Moved(Halt(sh), Wrapping)
    case Wrapping => Moved(sh.(feederDone := true), Signalling(d.readers))
    case Signalling(n) =>
      if n == 0 || |sh.queue| >= d.capacity then Moved(sh, Joining)
      else Moved(PutEntry(sh, Sentinel), Signalling(n - 1))
    case Joining => Moved(sh, Closing)
    case Closing => Moved(Halt(sh), Reaping(0))
    case Reaping(j) =>
      if j < d.readers then Moved(sh, Reaping(j + 1))
      else if sh.errors != [] then Moved(sh, Raised(sh.errors[0]))
      else Moved(sh, Returned)
    case Returned => Moved(sh, m)
    case Raised(_) => Moved(sh, m)
  }

  predicate CanMove(s: State) {
    (s.main.Joining? ==> s.shared.unfinished == 0)
    && (s.main.Reaping? && s.main.next < |s.readers| ==> s.readers[s.main.next].Exited?)
  }

  datatype Action = Cancel | Read(i: nat) | ReadFault(i: nat) | Move

  predicate Enabled(s: State, step: Action) {
    match step
    case Cancel => true
    case Read(i) => i < |s.readers|
    case ReadFault(i) => i < |s.readers| && s.readers[i].Reading?
    case Move => CanMove(s)
  }

  function WithReader(s: State, i: nat, r: Stepped): State
    requires i < |s.readers|
  {
    s.(shared := r.shared, readers := s.readers[i := r.reader])
  }

  function Do(d: Discovery, s: State, step: Action): State
    requires Enabled(s, step)
  {
    match step
    case Cancel => s.(shared := s.shared.(cancel := true))
    case Read(i) => WithReader(s, i, ReaderStep(d, s.shared, s.readers[i]))
    case ReadFault(i) => WithReader(s, i, Stepped(s.shared, Raising(ReadFailed)))
    case Move =>
      var m := MainStep(d, s.shared, s.main);
      s.(shared := m.shared, main := m.main)
  }

  ghost predicate Next(d: Discovery, s: State, t: State) {
    exists step :: Enabled(s, step) && t == Do(d, s, step)
  }

  ghost predicate StepAt(d: Discovery, run: seq<State>, i: nat) {
    i + 1 < |run| && Next(d, run[i], run[i + 1])
  }

  ghost predicate IsRun(d: Discovery, run: seq<State>) {
    && |run| > 0 && Init(d, run[0])
    && forall i: nat :: i + 1 < |run| ==> StepAt(d, run, i)
  }

  // -- Invariant ---------------------------------------------------------------------------------

  predicate Holding(r: Reader) {
    !r.Idle? && !r.TimedOut? && !r.Exited?
  }

  function Hand(r: Reader): int {
    if Holding(r) then 1 else 0
  }

  ghost predicate ReaderOk(d: Discovery, errors: seq<Failure>, r: Reader) {
    && (r.Rechecking? || r.Storing? ==> d.read(r.path) == Some(r.data))
    && (r.Halting? ==> errors != [])
  }

  ghost predicate ResultsOk(d: Discovery, results: map<string, Bytes>) {
    forall p :: p in results ==> d.read(p) == Some(results[p])
  }

  ghost predicate ThreadsOk(d: Discovery, s: State) {
    && ResultsOk(d, s.shared.results)
    && (forall i :: 0 <= i < |s.readers| ==> ReaderOk(d, s.shared.errors, s.readers[i]))
    && (s.main.FeedHalting? ==> s.shared.errors != [])
  }

  predicate AfterJoin(m: Main) {
    m.Closing? || m.Reaping? || m.Returned? || m.Raised?
  }

  ghost predicate Phases(d: Discovery, s: State) {
    && |s.readers| == d.readers
    && s.shared.unfinished == |s.shared.queue| + Count(Holding, s.readers)
    && (AfterJoin(s.main) ==> s.shared.unfinished == 0)
    && (s.main.Reaping? ==> forall i :: 0 <= i < |s.readers| && i < s.main.next ==> s.readers[i].Exited?)
    && (s.main.Returned? ==> s.shared.errors == [] && forall i :: 0 <= i < |s.readers| ==> s.readers[i].Exited?)
  }

  ghost predicate Doomed(s: State) {
    s.shared.errors != [] || s.main.FeedFailing? || exists i :: 0 <= i < |s.readers| && s.readers[i].Raising?
  }

  predicate InHand(r: Reader, path: string) {
    match r
    case Taken(e) => e == Path(path)
    case Checking(p) => p == path
    case Reading(p) => p == path
    case Rechecking(p, _) => p == path
    case Storing(p, _) => p == path
    case _ => false
  }

  predicate InQueue(queue: seq<Entry>, path: string) {
    exists i :: 0 <= i < |queue| && queue[i] == Path(path)
  }

  ghost predicate ByReader(s: State, path: string) {
    exists i :: 0 <= i < |s.readers| && InHand(s.readers[i], path)
  }

  predicate NotYetFed(m: Main, k: nat) {
    m.Feeding? && k >= m.next
  }

  ghost predicate Tracked(d: Discovery, s: State, k: nat)
    requires k < |d.admitted|
  {
    var p := d.admitted[k];
    p in s.shared.results || InQueue(s.shared.queue, p) || ByReader(s, p) || NotYetFed(s.main, k)
  }

  ghost predicate NoWorkLost(d: Discovery, s: State) {
    Doomed(s) || forall k: nat :: k < |d.admitted| ==> Tracked(d, s, k)
  }

  ghost predicate Inv(d: Discovery, s: State) {
    && ThreadsOk(d, s) && Phases(d, s)
    && (s.shared.stop && !AfterJoin(s.main) ==> Doomed(s))
    && NoWorkLost(d, s)
  }

  // -- Readers -----------------------------------------------------------------------------------

  lemma ReaderFacts(d: Discovery, sh: Shared, r: Reader)
    requires ReaderOk(d, sh.errors, r) && ResultsOk(d, sh.results)
    ensures var t := ReaderStep(d, sh, r);
      && ReaderOk(d, t.shared.errors, t.reader) && ResultsOk(d, t.shared.results)
      && (sh.errors != [] ==> t.shared.errors == sh.errors)
      && t.shared.unfinished - |t.shared.queue| - Hand(t.reader) == sh.unfinished - |sh.queue| - Hand(r)
      && (r.Exited? ==> t == Stepped(sh, Exited))
      && (sh.queue == [] && !Holding(r) ==> t.shared == sh && !Holding(t.reader))
  {
  }

  lemma ReaderTrace(d: Discovery, sh: Shared, r: Reader)
    requires ReaderOk(d, sh.errors, r)
    ensures var t := ReaderStep(d, sh, r);
      && (r.Raising? || sh.errors != [] ==> t.shared.errors != [])
      && (t.shared.stop && !sh.stop ==> t.reader.Raising? || t.shared.errors != [])
  {
  }

  lemma QueueSplit(a: seq<Entry>, c: seq<Entry>, path: string)
    ensures InQueue(a + c, path) <==> InQueue(a, path) || InQueue(c, path)
  {
    var both := a + c;
    assert forall i :: 0 <= i < |a| ==> both[i] == a[i];
    assert forall i :: 0 <= i < |c| ==> both[|a| + i] == c[i];
  }

  /** A path in hand is stored or stays in hand, unless the reader failed or found the stop flag. */
  lemma ReaderKeepsWork(d: Discovery, sh: Shared, r: Reader, path: string)
    ensures var t := ReaderStep(d, sh, r);
      && (path in sh.results ==> path in t.shared.results)
      && (InHand(r, path) ==> path in t.shared.results || InHand(t.reader, path) || t.reader.Raising? || sh.stop)
      && (InQueue(sh.queue, path) ==> InQueue(t.shared.queue, path) || InHand(t.reader, path))
  {
    if r.Idle? && sh.queue != [] {
      assert sh.queue == [sh.queue[0]] + sh.queue[1..];
      QueueSplit([sh.queue[0]], sh.queue[1..], path);
    }
  }

  lemma ReaderDooms(d: Discovery, s: State, i: nat)
    requires i < |s.readers| && ThreadsOk(d, s)
    ensures var t := WithReader(s, i, ReaderStep(d, s.shared, s.readers[i]));
      && (Doomed(s) ==> Doomed(t)) && (t.shared.stop && !s.shared.stop ==> Doomed(t))
      && (t.readers[i].Raising? ==> Doomed(t))
  {
    var r := ReaderStep(d, s.shared, s.readers[i]);
    var t := WithReader(s, i, r);
    ReaderTrace(d, s.shared, s.readers[i]);
    assert t.readers[i] == r.reader;
    if j :| 0 <= j < |s.readers| && s.readers[j].Raising? {
      assert j != i ==> t.readers[j].Raising?;
    }
  }

  lemma ReaderTracks(d: Discovery, s: State, i: nat, k: nat)
    requires i < |s.readers| && k < |d.admitted| && Tracked(d, s, k)
    ensures var t := WithReader(s, i, ReaderStep(d, s.shared, s.readers[i]));
      Tracked(d, t, k) || t.readers[i].Raising? || (s.shared.stop && Holding(s.readers[i]))
  {
    var p := d.admitted[k];
    var r := ReaderStep(d, s.shared, s.readers[i]);
    var t := WithReader(s, i, r);
    ReaderKeepsWork(d, s.shared, s.readers[i], p);
    assert t.readers[i] == r.reader;
    if ByReader(s, p) {
      var j :| 0 <= j < |s.readers| && InHand(s.readers[j], p);
      assert j != i ==> t.readers[j] == s.readers[j];
    }
  }

  lemma ReaderKeeps(d: Discovery, s: State, i: nat)
    requires i < |s.readers| && ThreadsOk(d, s) && Phases(d, s)
    ensures var t := WithReader(s, i, ReaderStep(d, s.shared, s.readers[i])); ThreadsOk(d, t) && Phases(d, t)
  {
    var r := ReaderStep(d, s.shared, s.readers[i]);
    ReaderFacts(d, s.shared, s.readers[i]);
    ReaderTrace(d, s.shared, s.readers[i]);
    CountUpdate(Holding, s.readers, i, r.reader);
    CountZero(Holding, s.readers);
    ReaderErrors(d, s.shared, s.readers[i]);
    ReaderPlaces(d, s, i, r);
  }

  lemma ReaderErrors(d: Discovery, sh: Shared, r: Reader)
    ensures sh.queue == [] && !Holding(r) ==> ReaderStep(d, sh, r).shared == sh
  {
  }

  lemma ReaderPlaces(d: Discovery, s: State, i: nat, r: Stepped)
    requires i < |s.readers| && ThreadsOk(d, s) && Phases(d, s)
    requires ReaderOk(d, r.shared.errors, r.reader) && ResultsOk(d, r.shared.results)
    requires s.shared.errors != [] ==> r.shared.errors == s.shared.errors
    requires r.shared.unfinished - |r.shared.queue| - Hand(r.reader)
         == s.shared.unfinished - |s.shared.queue| - Hand(s.readers[i])
    requires s.readers[i].Exited? ==> r == Stepped(s.shared, Exited)
    requires s.shared.queue == [] && !Holding(s.readers[i]) ==> r.shared == s.shared && !Holding(r.reader)
    requires Count(Holding, s.readers[i := r.reader]) == Count(Holding, s.readers) - Hand(s.readers[i]) + Hand(r.reader)
    ensures var t := WithReader(s, i, r); ThreadsOk(d, t) && Phases(d, t)
  {
    CountZero(Holding, s.readers);
    var t := WithReader(s, i, r);
    forall j | 0 <= j < |t.readers| ensures ReaderOk(d, t.shared.errors, t.readers[j]) {
      assert j != i ==> t.readers[j] == s.readers[j];
    }
    if s.readers[i].Exited? {
      assert s.readers[i := Exited] == s.readers;
    }
  }

  lemma ReaderLosesNothing(d: Discovery, s: State, i: nat)
    requires i < |s.readers| && Inv(d, s)
    ensures NoWorkLost(d, WithReader(s, i, ReaderStep(d, s.shared, s.readers[i])))
  {
    var t := WithReader(s, i, ReaderStep(d, s.shared, s.readers[i]));
    ReaderDooms(d, s, i);
    CountZero(Holding, s.readers);
    if !Doomed(t) {
      forall k: nat | k < |d.admitted| ensures Tracked(d, t, k) {
        ReaderTracks(d, s, i, k);
      }
    }
  }

  // -- The calling thread --------------------------------------------------------------------------

  function After(d: Discovery, s: State): State {
    var m := MainStep(d, s.shared, s.main);
    s.(shared := m.shared, main := m.main)
  }

  lemma MainKeeps(d: Discovery, s: State)
    requires CanMove(s) && ThreadsOk(d, s) && Phases(d, s)
    ensures ThreadsOk(d, After(d, s)) && Phases(d, After(d, s))
  {
    MainKeepsThreads(d, s);
    MainKeepsPhases(d, s);
  }

  lemma MainFrame(d: Discovery, s: State)
    requires CanMove(s)
    ensures var t := After(d, s);
      && t.readers == s.readers && t.shared.results == s.shared.results
      && (s.shared.errors != [] ==> t.shared.errors != [])
      && t.shared.unfinished - |t.shared.queue| == s.shared.unfinished - |s.shared.queue|
  {
  }

  lemma MainKeepsThreads(d: Discovery, s: State)
    requires CanMove(s) && ThreadsOk(d, s)
    ensures ThreadsOk(d, After(d, s))
  {
    MainFrame(d, s);
  }

  lemma MainKeepsPhases(d: Discovery, s: State)
    requires CanMove(s) && ThreadsOk(d, s) && Phases(d, s)
    ensures Phases(d, After(d, s))
  {
    MainFrame(d, s);
  }

  lemma MainDooms(d: Discovery, s: State)
    requires CanMove(s) && ThreadsOk(d, s)
    ensures var t := After(d, s);
      (Doomed(s) ==> Doomed(t)) && (t.shared.stop && !s.shared.stop && !AfterJoin(t.main) ==> Doomed(t))
  {
    var t := After(d, s);
    assert t.readers == s.readers;
    if j :| 0 <= j < |s.readers| && s.readers[j].Raising? {
      assert t.readers[j].Raising?;
    }
  }

  lemma MainTracks(d: Discovery, s: State, k: nat)
    requires CanMove(s) && k < |d.admitted| && Tracked(d, s, k)
    requires !(s.shared.stop && s.main.Feeding?)
    ensures Tracked(d, After(d, s), k) || Doomed(After(d, s))
  {
    var p, t := d.admitted[k], After(d, s);
    assert t.readers == s.readers && t.shared.results == s.shared.results;
    assert ByReader(s, p) ==> ByReader(t, p);
    if t.shared.queue != s.shared.queue {
      var e := t.shared.queue[|s.shared.queue|];
      assert t.shared.queue == s.shared.queue + [e];
      QueueSplit(s.shared.queue, [e], p);
      assert [e][0] == e;
    }
  }

  lemma MainLosesNothing(d: Discovery, s: State)
    requires CanMove(s) && Inv(d, s)
    ensures NoWorkLost(d, After(d, s))
  {
    var t := After(d, s);
    MainDooms(d, s);
    if !Doomed(t) {
      forall k: nat | k < |d.admitted| ensures Tracked(d, t, k) {
        MainTracks(d, s, k);
      }
    }
  }

  lemma FaultKeeps(d: Discovery, s: State, i: nat)
    requires i < |s.readers| && s.readers[i].Reading? && Inv(d, s)
    ensures Inv(d, WithReader(s, i, Stepped(s.shared, Raising(ReadFailed))))
  {
    CountUpdate(Holding, s.readers, i, Raising(ReadFailed));
    ReaderPlaces(d, s, i, Stepped(s.shared, Raising(ReadFailed)));
    var t := WithReader(s, i, Stepped(s.shared, Raising(ReadFailed)));
    assert t.readers[i].Raising?;
  }

  lemma CancelKeeps(d: Discovery, s: State)
    requires Inv(d, s)
    ensures Inv(d, s.(shared := s.shared.(cancel := true)))
  {
    var t := s.(shared := s.shared.(cancel := true));
    assert Doomed(s) <==> Doomed(t);
    if !Doomed(t) {
      forall k: nat | k < |d.admitted| ensures Tracked(d, t, k) {
        assert Tracked(d, s, k) && ByReader(s, d.admitted[k]) == ByReader(t, d.admitted[k]);
      }
    }
  }

  lemma StepKeeps(d: Discovery, s: State, step: Action)
    requires Enabled(s, step) && Inv(d, s)
    ensures Inv(d, Do(d, s, step))
  {
    match step
    case Cancel => CancelKeeps(d, s);
    case Read(i) =>
      ReaderKeeps(d, s, i);
      ReaderDooms(d, s, i);
      ReaderLosesNothing(d, s, i);
    case ReadFault(i) => FaultKeeps(d, s, i);
    case Move =>
      MainKeeps(d, s);
      MainDooms(d, s);
      MainLosesNothing(d, s);
  }

  lemma {:induction false} RunInv(d: Discovery, run: seq<State>, i: nat)
    requires IsRun(d, run) && i < |run|
    ensures Inv(d, run[i])
  {
    if i == 0 {
      CountZero(Holding, run[0].readers);
      assert forall k: nat :: k < |d.admitted| ==> NotYetFed(run[0].main, k);
    } else {
      RunInv(d, run, i - 1);
      assert StepAt(d, run, i - 1);
      var step :| Enabled(run[i - 1], step) && run[i] == Do(d, run[i - 1], step);
      StepKeeps(d, run[i - 1], step);
    }
  }

  // -- Normal return -------------------------------------------------------------------------------

  lemma EverythingRead(d: Discovery, s: State, k: nat)
    requires Inv(d, s) && s.main.Returned? && k < |d.admitted|
    ensures d.admitted[k] in s.shared.results && d.read(d.admitted[k]) == Some(s.shared.results[d.admitted[k]])
  {
    CountZero(Holding, s.readers);
    assert s.shared.queue == [];
    assert Tracked(d, s, k);
  }

  /** `[FileItem(...) for rel in admitted]` over the collected results. */
  method CollectItems(d: Discovery, results: map<string, Bytes>) returns (items: seq<FileItem>)
    requires forall k :: 0 <= k < |d.admitted| ==>
      d.admitted[k] in results && d.read(d.admitted[k]) == Some(results[d.admitted[k]])
    ensures Sequential(d, d.admitted) == Some(items)
  {
    items := [];
    for k := 0 to |d.admitted|
      invariant Sequential(d, d.admitted[..k]) == Some(items)
    {
      assert d.admitted[..k + 1][..k] == d.admitted[..k];
      var p := d.admitted[k];
      items := items + [ItemOf(d, p, results[p])];
    }
    assert d.admitted[..|d.admitted|] == d.admitted;
  }

  /** The main result: when concurrent discovery returns normally, the sequential form succeeds too, with the
      same items in the same order. */
  method ConcurrentDiscovery(d: Discovery, s: State, ghost run: seq<State>) returns (items: seq<FileItem>)
    requires IsRun(d, run) && s == run[|run| - 1] && s.main.Returned?
    ensures Sequential(d, d.admitted) == Some(items)
    ensures |items| == |d.admitted|
    ensures forall k :: 0 <= k < |items| ==>
      && items[k].path == d.admitted[k] && d.read(d.admitted[k]) == Some(items[k].data)
      && items[k].size == |items[k].data| && items[k].crc == d.crc(items[k].data)
  {
    RunInv(d, run, |run| - 1);
    forall k | 0 <= k < |d.admitted|
      ensures d.admitted[k] in s.shared.results && d.read(d.admitted[k]) == Some(s.shared.results[d.admitted[k]])
    {
      EverythingRead(d, s, k);
    }
    items := CollectItems(d, s.shared.results);
    SequentialItems(d, d.admitted);
  }

  /** What the sequential form returns, item by item. */
  lemma {:induction false} SequentialItems(d: Discovery, paths: seq<string>)
    ensures Sequential(d, paths).Some? ==>
      var items := Sequential(d, paths).value;
      && |items| == |paths|
      && forall k :: 0 <= k < |items| ==>
           && items[k].path == paths[k] && d.read(paths[k]) == Some(items[k].data)
           && items[k].size == |items[k].data| && items[k].crc == d.crc(items[k].data)
  {
    if paths != [] {
      SequentialItems(d, paths[..|paths| - 1]);
    }
  }

  /** What the sequential form cannot read, the concurrent form never returns from normally. */
  lemma UnreadableIsReported(d: Discovery, run: seq<State>, i: nat)
    requires IsRun(d, run) && i < |run| && Sequential(d, d.admitted).None?
    ensures !run[i].main.Returned?
  {
    RunInv(d, run, i);
    if run[i].main.Returned? {
      forall k | 0 <= k < |d.admitted| ensures d.read(d.admitted[k]).Some? {
        EverythingRead(d, run[i], k);
      }
      ReadableSucceeds(d, d.admitted);
      assert false;
    }
  }

  lemma {:induction false} ReadableSucceeds(d: Discovery, paths: seq<string>)
    requires forall k :: 0 <= k < |paths| ==> d.read(paths[k]).Some?
    ensures Sequential(d, paths).Some?
  {
    if paths != [] {
      ReadableSucceeds(d, paths[..|paths| - 1]);
    }
  }
}
