/** Building whole collections: any reachable state with a free lock extends by a `reclaim` or a `compact`. */
module StoreReclaimRuns {
  import opened Options
  import opened StoreDisk
  import opened Retention
  import opened StoreMachine
  import opened StoreInvariant
  import opened StoreSteps
  import opened StoreScenarios
  import opened StorePins
  import opened StoreCollection
  import opened StoreHandles
  import opened StoreReclaim
  import opened Compaction

  // -- Deleting ----------------------------------------------------------------------------------------

  /** `t` is `s` but for generation files, journal and the phase of call `a`. */
  ghost predicate Apart(s: State, t: State, a: nat) {
    && a in s.actors && a in t.actors && t.actors[a].pid == s.actors[a].pid
    && t.actors == s.actors[a := t.actors[a]] && t.lock == s.lock
    && SameReaders(s, t) && t.nextActor == s.nextActor && t.log == s.log && t.acked == s.acked
    && t.disk.head.now == s.disk.head.now && t.tmp.gens == s.tmp.gens
    && s.actors[a].phase.Collecting? && t.actors[a].phase.Collecting?
    && t.actors[a].phase.gc.compact == s.actors[a].phase.gc.compact
  }

  /** The collector is among its deletions, and its next step waits for nothing. */
  predicate Ready(s: State, a: nat) {
    && a in s.actors && Deletes(s.actors[a].phase) && !Finishing(s.actors[a].phase.stage)
    && (Journaling(s.actors[a].phase.stage) ==> s.actors[a].phase.gc.victims != [])
    && (AwaitsJournal(s.actors[a].phase.stage) ==> s.tmp.journal.Present?)
  }

  predicate DeletedAll(s: State, a: nat) {
    && a in s.actors && s.actors[a].phase.Collecting? && s.actors[a].phase.stage == Deleting
    && s.actors[a].phase.gc.victims == []
  }

  function StepsLeft(p: Phase): nat
    requires p.Collecting?
  {
    6 * |p.gc.victims| + StageLeft(p.stage)
  }

  lemma DeletionStep(level: Level, s: State, a: nat)
    requires Ready(s, a) && !DeletedAll(s, a)
    ensures GcEnabled(s, s.actors[a].phase, {})
    ensures var t := DoGc(level, s, a, {});
      Apart(s, t, a) && Ready(t, a) && StepsLeft(t.actors[a].phase) < StepsLeft(s.actors[a].phase)
  {
    var p := s.actors[a].phase;
    assert DoGc(level, s, a, {}) == GcDelete(level, s, a, p.gc, p.stage);
    if AwaitsJournal(p.stage) { RecordStep(level, s, a, p.gc, p.stage); }
    else if p.stage.Deleting? { ChooseStep(level, s, a, p.gc); }
    else if p.stage.JournalSynced? { UnlinkStep(level, s, a, p.gc); }
    else { SyncStep(level, s, a, p.gc, p.stage); }
  }

  lemma ChooseStep(level: Level, s: State, a: nat, gc: Gc)
    requires Ready(s, a) && !DeletedAll(s, a) && s.actors[a].phase == Collecting(gc, Deleting)
    ensures var t := GcDelete(level, s, a, gc, Deleting);
      Apart(s, t, a) && Ready(t, a) && StepsLeft(t.actors[a].phase) < StepsLeft(s.actors[a].phase)
  {
  }

  lemma RecordStep(level: Level, s: State, a: nat, gc: Gc, stage: GcStage)
    requires Ready(s, a) && s.actors[a].phase == Collecting(gc, stage) && AwaitsJournal(stage)
    ensures var t := GcDelete(level, s, a, gc, stage);
      Apart(s, t, a) && Ready(t, a) && StepsLeft(t.actors[a].phase) < StepsLeft(s.actors[a].phase)
  {
  }

  lemma UnlinkStep(level: Level, s: State, a: nat, gc: Gc)
    requires Ready(s, a) && s.actors[a].phase == Collecting(gc, JournalSynced)
    ensures var t := GcDelete(level, s, a, gc, JournalSynced);
      Apart(s, t, a) && Ready(t, a) && StepsLeft(t.actors[a].phase) < StepsLeft(s.actors[a].phase)
  {
  }

  lemma SyncStep(level: Level, s: State, a: nat, gc: Gc, stage: GcStage)
    requires Ready(s, a) && s.actors[a].phase == Collecting(gc, stage) && (stage.JournalRenamed? || stage.Unlinked?)
    ensures var t := GcDelete(level, s, a, gc, stage);
      Apart(s, t, a) && Ready(t, a) && StepsLeft(t.actors[a].phase) < StepsLeft(s.actors[a].phase)
  {
    DirsyncSettles(s.disk);
  }

  /** Journal staging is what it was, or used up, but for the record being written. */
  predicate JournalStaging(s: State, a: nat, was: Entry<set<nat>>)
    requires a in s.actors && s.actors[a].phase.Collecting?
  {
    AwaitsJournal(s.actors[a].phase.stage) || s.tmp.journal == was || s.tmp.journal == Absent
  }

  lemma StepStages(level: Level, s: State, a: nat, was: Entry<set<nat>>)
    requires Ready(s, a) && !DeletedAll(s, a) && JournalStaging(s, a, was) && GcEnabled(s, s.actors[a].phase, {})
    requires a in DoGc(level, s, a, {}).actors && DoGc(level, s, a, {}).actors[a].phase.Collecting?
    ensures JournalStaging(DoGc(level, s, a, {}), a, was)
  {
    var p := s.actors[a].phase;
    assert DoGc(level, s, a, {}) == GcDelete(level, s, a, p.gc, p.stage);
  }

  /** A collector past its probe can go on until it has nothing left to delete. */
  lemma {:induction false} DeleteAll(level: Level, run: seq<State>, a: nat, was: Entry<set<nat>>)
    returns (longer: seq<State>)
    requires IsRun(level, run) && Ready(Last(run), a) && JournalStaging(Last(run), a, was)
    ensures Continues(level, run, longer) && Runs(longer, |run| - 1, |longer| - 1, a)
    ensures Apart(Last(run), Last(longer), a) && DeletedAll(Last(longer), a) && JournalStaging(Last(longer), a, was)
    decreases StepsLeft(Last(run).actors[a].phase)
  {
    if DeletedAll(Last(run), a) {
      longer := run;
    } else {
      DeletionStep(level, Last(run), a);
      StepStages(level, Last(run), a, was);
      var next := Extend(level, run, GcStep(a, {}));
      longer := DeleteAll(level, next, a, was);
    }
  }

  // -- Listing and probing -------------------------------------------------------------------------------

  /** The pin files that show a dead process. */
  function StalePins(s: State): set<nat> {
    set pin | pin in s.pins && Listable(s.pins[pin].gen) && s.pins[pin].pid !in s.alive
  }

  /** `t` is `s` with one more call, a collection by process `pid` that has reaped the stale pins. */
  ghost predicate Collects(s: State, t: State, a: nat, pid: nat, schedule: Schedule, compact: bool) {
    && a in t.actors && t.actors[a].pid == pid && t.actors == s.actors[a := t.actors[a]] && t.lock == Some(a)
    && t.actors[a].phase.Collecting?
    && t.actors[a].phase.gc.schedule == schedule && t.actors[a].phase.gc.compact == compact
    && SameReaders(s.(pins := s.pins - StalePins(s)), t) && t.log == s.log && t.acked == s.acked
    && t.nextActor == s.nextActor + 1 && t.disk == s.disk && t.tmp == s.tmp
  }

  lemma Begins(level: Level, run: seq<State>, pid: nat, schedule: Schedule, compact: bool)
    returns (longer: seq<State>, a: nat)
    requires IsRun(level, run) && Last(run).lock == None && pid in Last(run).alive && ValidSchedule(schedule)
    requires Last(run).disk.head.now.Present?
    ensures Continues(level, run, longer) && a == Last(run).nextActor
    ensures Collects(Last(run), Last(longer), a, pid, schedule, compact)
    ensures Last(longer).actors[a].phase.stage == HeadRead
  {
    var s := Last(run);
    var head;
    longer, a, head := Enters(level, run, pid, schedule, compact);
    var phase := Collecting(Gc(schedule, compact, head, map[], {}, []), HeadRead);
    if StalePins(s) == {} {
      assert s.pins - StalePins(s) == s.pins;
    } else {
      longer := ReapsStale(level, longer, a);
    }
    assert Last(longer).actors == s.actors[a := Actor(pid, phase)];
  }

  lemma Enters(level: Level, run: seq<State>, pid: nat, schedule: Schedule, compact: bool)
    returns (longer: seq<State>, a: nat, head: nat)
    requires IsRun(level, run) && Last(run).lock == None && pid in Last(run).alive && ValidSchedule(schedule)
    requires Last(run).disk.head.now.Present?
    ensures Continues(level, run, longer) && a == Last(run).nextActor
    ensures var s := Last(run); Last(longer) == s.(nextActor := a + 1, lock := Some(a),
      actors := s.actors[a := Actor(pid, Collecting(Gc(schedule, compact, head, map[], {}, []), HeadRead))])
  {
    a, head := Last(run).nextActor, Last(run).disk.head.now.val;
    longer := Extend(level, run, StartCollect(pid, schedule, compact));
    longer := Extend(level, longer, GcStep(a, {}));
    longer := Extend(level, longer, GcStep(a, {}));
    assert Last(longer).actors == Last(run).actors[a := Last(longer).actors[a]];
  }

  lemma ReapsStale(level: Level, run: seq<State>, a: nat) returns (longer: seq<State>)
    requires IsRun(level, run) && a in Last(run).actors && StalePins(Last(run)) != {}
    requires Last(run).actors[a].phase.Collecting? && Last(run).actors[a].phase.stage == HeadRead
    ensures Continues(level, run, longer)
    ensures Last(longer) == Last(run).(pins := Last(run).pins - StalePins(Last(run)))
  {
    assert forall pin :: pin in StalePins(Last(run)) ==> pin in ListedPins(Last(run));
    longer := Extend(level, run, GcStep(a, StalePins(Last(run))));
  }

  lemma Lists(level: Level, run: seq<State>, a: nat) returns (longer: seq<State>)
    requires IsRun(level, run) && a in Last(run).actors
    requires Last(run).actors[a].phase.Collecting? && Last(run).actors[a].phase.stage == HeadRead
    ensures Continues(level, run, longer) && Apart(Last(run), Last(longer), a)
    ensures Last(longer).disk == Last(run).disk && Last(longer).tmp == Last(run).tmp
    ensures Last(longer).actors[a].phase ==
      Collecting(Last(run).actors[a].phase.gc.(listed := ListedPins(Last(run))), Listed)
  {
    longer := Extend(level, run, GcStep(a, {}));
    longer := Extend(level, longer, GcStep(a, {}));
    assert ListedPins(longer[|longer| - 2]) == ListedPins(Last(run));
  }

  lemma Probes(level: Level, run: seq<State>, a: nat, live: set<nat>) returns (longer: seq<State>)
    requires IsRun(level, run) && a in Last(run).actors
    requires Last(run).actors[a].phase.Collecting? && Last(run).actors[a].phase.stage == Listed
    requires var gc := Last(run).actors[a].phase.gc;
      ValidSchedule(gc.schedule) && live == Protected(gc.listed, Last(run).alive)
    ensures Continues(level, run, longer) && Apart(Last(run), Last(longer), a) && Last(longer).disk == Last(run).disk
    ensures Ready(Last(longer), a) && Chosen(Last(longer), a) && Last(longer).tmp == Last(run).tmp
    ensures var gc, next := Last(run).actors[a].phase.gc, Last(longer).actors[a].phase.gc;
      next.live == live && next.schedule == gc.schedule && next.head == gc.head
  {
    assert forall pin :: pin in Last(run).actors[a].phase.gc.listed ==>
      Last(run).actors[a].phase.gc.listed[pin].gen in PinnedGens(Last(run).actors[a].phase.gc);
    longer := Extend(level, run, GcStep(a, live));
  }

  lemma ProbeAndDelete(level: Level, run: seq<State>, a: nat) returns (done: seq<State>)
    requires IsRun(level, run) && a in Last(run).actors
    requires Last(run).actors[a].phase.Collecting? && Last(run).actors[a].phase.stage == Listed
    requires ValidSchedule(Last(run).actors[a].phase.gc.schedule)
    ensures Continues(level, run, done) && Apart(Last(run), Last(done), a) && DeletedAll(Last(done), a)
    ensures JournalStaging(Last(done), a, Last(run).tmp.journal)
    ensures var gc := Last(run).actors[a].phase.gc;
      Removed(Last(run).disk, Last(done).disk, gc.schedule, Protected(gc.listed, Last(run).alive), gc.head)
  {
    var gc := Last(run).actors[a].phase.gc;
    var live := Protected(gc.listed, Last(run).alive);
    var probed := Probes(level, run, a, live);
    done := DeleteAll(level, probed, a, Last(run).tmp.journal);
    var size: Sizer := (x: Snapshot) => 0;
    assert done[|probed| - 1] == Last(probed);
    ChosenIsKilledRun(size, level, done, |probed| - 1, |done| - 1, a);
    FullRunRemoves(size, Last(run).disk, Last(done).disk, gc.schedule, live, gc.head);
  }

  // -- Sweeping and returning ----------------------------------------------------------------------------

  /** The staging files of dead publishers. */
  function Orphans(s: State): set<nat> {
    set w | w in s.tmp.gens && s.tmp.gens[w].pid !in s.alive
  }

  /** No step of a collector takes away the staging file of a living publisher. */
  lemma CollectorsSpareLiveStaging(level: Level, s: State, a: nat, choice: set<nat>, w: nat)
    requires Enabled(level, s, GcStep(a, choice)) && w in s.tmp.gens && s.tmp.gens[w].pid in s.alive
    ensures var t := Do(level, s, GcStep(a, choice)); w in t.tmp.gens && t.tmp.gens[w] == s.tmp.gens[w]
  {
    var p := s.actors[a].phase;
    if !Scanning(p.stage) && !Finishing(p.stage) {
      DeletionsKeepStaging(level, s, a, p.gc, p.stage);
    }
  }

  lemma DeletionsKeepStaging(level: Level, s: State, a: nat, gc: Gc, stage: GcStage)
    requires a in s.actors && !Scanning(stage) && !Finishing(stage) && (stage == JournalSynced ==> gc.victims != [])
    ensures GcDelete(level, s, a, gc, stage).tmp.gens == s.tmp.gens
  {
  }

  /** The call `a` is over; `compact` has swept the orphan staging and synced the directory. */
  ghost predicate Ended(level: Level, s: State, t: State, a: nat)
    requires a in s.actors && s.actors[a].phase.Collecting?
  {
    && t.actors == s.actors - {a} && t.lock == (if s.lock == Some(a) then None else s.lock)
    && SameReaders(s, t) && t.log == s.log && t.acked == s.acked && t.nextActor == s.nextActor
    && if s.actors[a].phase.gc.compact
       then t.disk == s.disk.DirsyncIf(level) && t.tmp == Staging(s.tmp.gens - Orphans(s), Absent, s.tmp.journal, false)
       else t.disk == s.disk && t.tmp == s.tmp
  }

  lemma Ends(level: Level, run: seq<State>, a: nat) returns (longer: seq<State>)
    requires IsRun(level, run) && DeletedAll(Last(run), a)
    ensures Continues(level, run, longer) && Ended(level, Last(run), Last(longer), a)
  {
    if Last(run).actors[a].phase.gc.compact {
      longer := SweepsAll(level, run, a);
    } else {
      longer := Extend(level, run, GcStep(a, {}));
    }
  }

  lemma SweepsAll(level: Level, run: seq<State>, a: nat) returns (longer: seq<State>)
    requires IsRun(level, run) && DeletedAll(Last(run), a) && Last(run).actors[a].phase.gc.compact
    ensures Continues(level, run, longer) && Ended(level, Last(run), Last(longer), a)
  {
    var s, gc := Last(run), Last(run).actors[a].phase.gc;
    longer := Extend(level, run, GcStep(a, {}));
    assert Last(longer) == Move(s, a, Collecting(gc, Sweeping));
    longer := Extend(level, longer, GcStep(a, Orphans(s)));
    var swept := s.(tmp := Staging(s.tmp.gens - Orphans(s), Absent, s.tmp.journal, true));
    assert Last(longer).actors == s.actors[a := s.actors[a].(phase := Collecting(gc, ManifestStaged))];
    assert Last(longer) == Move(swept, a, Collecting(gc, ManifestStaged));
    longer := WritesManifest(level, longer, swept, a, gc);
  }

  lemma WritesManifest(level: Level, run: seq<State>, s: State, a: nat, gc: Gc) returns (longer: seq<State>)
    requires IsRun(level, run) && a in s.actors && s.tmp.manifest
    requires Last(run) == Move(s, a, Collecting(gc, ManifestStaged))
    ensures Continues(level, run, longer)
    ensures Last(longer) == Finish(s.(tmp := s.tmp.(manifest := false), disk := s.disk.DirsyncIf(level)), a)
  {
    longer := Extend(level, run, GcStep(a, {}));
    longer := Extend(level, longer, GcStep(a, {}));
    assert Last(longer).actors == s.actors - {a};
  }

  // -- A whole collection --------------------------------------------------------------------------------

  /** The generations with a pin of a living process. */
  function LivePins(s: State): set<nat> {
    set pin | pin in s.pins && s.pins[pin].pid in s.alive :: s.pins[pin].gen
  }

  /** `t` is `s` after one whole collection that counted the pins on the generations in `live`. */
  ghost predicate Collected(level: Level, s: State, t: State, schedule: Schedule, compact: bool, live: set<nat>) {
    && t.actors == s.actors && t.lock == None && t.log == s.log && t.acked == s.acked
    && SameReaders(s.(pins := s.pins - StalePins(s)), t) && t.nextActor == s.nextActor + 1
    && t.disk.head.now == s.disk.head.now && RemovedExactly(s, t, schedule, live)
    && t.tmp.gens == (if compact then s.tmp.gens - Orphans(s) else s.tmp.gens)
    && (t.tmp.journal == s.tmp.journal || t.tmp.journal == Absent)
    && (compact ==> t.tmp.head == Absent && !t.tmp.manifest)
    && (compact && level.AtLeast(L2) ==> t.disk == t.disk.Dirsync())
  }

  /** Any reachable state with a free lock, a HEAD and a live process extends by one whole collection: the pins of dead
      processes are gone, and exactly what the schedule takes when the others count. */
  lemma Collect(level: Level, run: seq<State>, pid: nat, schedule: Schedule, compact: bool)
    returns (longer: seq<State>)
    requires IsRun(level, run) && Last(run).lock == None && pid in Last(run).alive && ValidSchedule(schedule)
    requires Last(run).disk.head.now.Present?
    ensures Continues(level, run, longer)
    ensures Collected(level, Last(run), Last(longer), schedule, compact, LivePins(Last(run)))
  {
    var s := Last(run);
    var begun, a := Begins(level, run, pid, schedule, compact);
    var listed := Lists(level, begun, a);
    ScheduleKept(level, listed, a);
    var done := ProbeAndDelete(level, listed, a);
    CountingLive(s, Last(begun), Last(done).disk, schedule);
    CallsAreNumbered(level, run);
    longer := Ends(level, done, a);
    WholeCollection(level, s, Last(begun), Last(listed), Last(done), Last(longer), a, pid, schedule, compact);
  }

  lemma ScheduleKept(level: Level, run: seq<State>, a: nat)
    requires IsRun(level, run) && a in Last(run).actors
    requires Last(run).actors[a].phase.Collecting? && Last(run).actors[a].phase.stage == Listed
    ensures ValidSchedule(Last(run).actors[a].phase.gc.schedule)
    ensures |Last(run).log| == Last(run).actors[a].phase.gc.head + 1
  {
    RunInv(level, run, |run| - 1);
    assert ActorInv(level, Last(run), a);
  }

  lemma WholeCollection(level: Level, s: State, begun: State, listed: State, done: State, t: State, a: nat, pid: nat,
                        schedule: Schedule, compact: bool)
    requires a == s.nextActor && (forall b :: b in s.actors ==> b < s.nextActor)
    requires Collects(s, begun, a, pid, schedule, compact) && Apart(begun, listed, a) && Apart(listed, done, a)
    requires DeletedAll(done, a) && Ended(level, done, t, a)
    requires listed.tmp == begun.tmp && JournalStaging(done, a, listed.tmp.journal)
    requires RemovedExactly(s, done, schedule, LivePins(s))
    ensures Collected(level, s, t, schedule, compact, LivePins(s))
  {
    assert t.actors == s.actors;
    DirsyncSettles(done.disk);
    assert done.disk.Dirsync().Dirsync() == done.disk.Dirsync();
  }

  /** Pins on generations with seven digits are not listed, and those generations never taken. */
  lemma CountingLive(s: State, begun: State, after: Disk, schedule: Schedule)
    requires ValidSchedule(schedule) && s.log != [] && begun.pins == s.pins - StalePins(s)
    requires Removed(s.disk, after, schedule, Protected(ListedPins(begun), s.alive), |s.log| - 1)
    ensures Removed(s.disk, after, schedule, LivePins(s), |s.log| - 1)
  {
    var listed, live := Protected(ListedPins(begun), s.alive), LivePins(s);
    forall h: nat | Listable(h) ensures h in listed <==> h in live {
      if h in live {
        var pin :| pin in s.pins && s.pins[pin].pid in s.alive && s.pins[pin].gen == h;
        assert pin in ListedPins(begun);
      }
    }
    forall g: nat {:trigger Takes(schedule, s.disk.OnDisk(), live, |s.log| - 1, g)}
      ensures Takes(schedule, s.disk.OnDisk(), listed, |s.log| - 1, g)
          <==> Takes(schedule, s.disk.OnDisk(), live, |s.log| - 1, g)
    {
      TakesAgrees(schedule, s.disk.OnDisk(), listed, live, |s.log| - 1, g);
    }
  }

  lemma TakesAgrees(schedule: Schedule, onDisk: set<nat>, a: set<nat>, b: set<nat>, head: nat, g: nat)
    requires ValidSchedule(schedule) && forall h: nat :: Listable(h) ==> (h in a <==> h in b)
    ensures Takes(schedule, onDisk, a, head, g) <==> Takes(schedule, onDisk, b, head, g)
  {
    assert (set h | h in onDisk && Listable(h) && h !in a && g < h < head)
        == (set h | h in onDisk && Listable(h) && h !in b && g < h < head);
  }

  // -- Closing, then collecting --------------------------------------------------------------------------

  function LivePinsOfOthers(s: State, a: nat): set<nat> {
    set pin | pin in s.pins && s.pins[pin].pid in s.alive && s.pins[pin].owner != a :: s.pins[pin].gen
  }

  /** From any reachable state with a free lock: close a handle, then collect.  Its pin no longer counts. */
  lemma CloseThenCollect(level: Level, run: seq<State>, a: nat, pid: nat, schedule: Schedule, compact: bool)
    returns (longer: seq<State>)
    requires IsRun(level, run) && Last(run).lock == None && pid in Last(run).alive && ValidSchedule(schedule)
    requires Last(run).disk.head.now.Present?
    requires a in Last(run).actors && Last(run).actors[a].phase.Holding?
    ensures Continues(level, run, longer) && Last(longer).actors == Last(run).actors - {a} && HasNoPin(Last(longer), a)
    ensures RemovedExactly(Last(run), Last(longer), schedule, LivePinsOfOthers(Last(run), a))
  {
    var closed := Closes(level, run, a);
    longer := Collect(level, closed, pid, schedule, compact);
  }

  lemma Closes(level: Level, run: seq<State>, a: nat) returns (longer: seq<State>)
    requires IsRun(level, run) && a in Last(run).actors && Last(run).actors[a].phase.Holding?
    ensures Continues(level, run, longer) && Last(longer).actors == Last(run).actors - {a} && HasNoPin(Last(longer), a)
    ensures LivePins(Last(longer)) == LivePinsOfOthers(Last(run), a)
    ensures var s, t := Last(run), Last(longer);
      && t.disk == s.disk && t.log == s.log && t.alive == s.alive
      && t.lock == (if s.lock == Some(a) then None else s.lock)
  {
    var s := Last(run);
    RunInv(level, run, |run| - 1);
    RunOwns(level, run, |run| - 1);
    assert ActorInv(level, s, a);
    CloseTakesOwn(level, s, a);
    CloseReleases(s, a);
    longer := Extend(level, run, OpenStep(a));
    assert LivePins(Last(longer)) == LivePinsOfOthers(s, a);
  }
}
