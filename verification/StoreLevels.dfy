/** Which durability level makes an acknowledgement survive a crash of the machine. */
module StoreLevels {
  import opened StoreDisk
  import opened StoreMachine
  import opened StoreInvariant
  import opened StoreSteps
  import opened StoreTheorems
  import opened StoreScenarios

  ghost predicate AckSurvives(s: State, after: Disk) {
    forall g :: g in s.acked ==> g < Length(after.head.now)
  }

  ghost predicate AcksAreDurable(level: Level) {
    forall run: seq<State>, i: nat, after: Disk {:trigger IsRun(level, run), run[i].disk.CrashOutcome(after)} ::
      IsRun(level, run) && i < |run| && run[i].disk.CrashOutcome(after) ==> AckSurvives(run[i], after)
  }

  // -- Without directory barriers everything can still be undone -------------------------------------

  /** Every entry may come back absent. */
  ghost predicate Unsettled(d: Disk) {
    && Absent in d.head.Outcomes() && Absent in d.journal.Outcomes()
    && forall g: nat :: Absent in d.GenSlot(g).Outcomes()
  }

  lemma WriteUnsettles(d: Disk, g: nat, file: Entry<Snapshot>)
    requires Unsettled(d)
    ensures Unsettled(d.RenameGen(g, file)) && Unsettled(d.UnlinkGen(g))
  {
    var e := d.RenameGen(g, file);
    var f := d.UnlinkGen(g);
    forall h: nat ensures Absent in e.GenSlot(h).Outcomes() && Absent in f.GenSlot(h).Outcomes() {
      assert Absent in d.GenSlot(h).Outcomes();
    }
  }

  lemma PointersUnsettle(d: Disk, head: Entry<nat>, journal: Entry<set<nat>>)
    requires Unsettled(d)
    ensures Unsettled(d.RenameHead(head)) && Unsettled(d.RenameJournal(journal))
  {
    var e := d.RenameHead(head);
    var f := d.RenameJournal(journal);
    forall h: nat ensures Absent in e.GenSlot(h).Outcomes() && Absent in f.GenSlot(h).Outcomes() {
      assert Absent in d.GenSlot(h).Outcomes();
    }
  }

  lemma PubUnsettles(level: Level, s: State, a: nat)
    requires !level.AtLeast(L2) && Unsettled(s.disk) && Enabled(level, s, PubStep(a))
    ensures Unsettled(DoPub(level, s, a).disk)
  {
    PointersUnsettle(s.disk, s.tmp.head, s.tmp.journal);
    if s.actors[a].phase.pub == BaseChecked {
      WriteUnsettles(s.disk, s.actors[a].phase.snap.generation, s.tmp.gens[a].file);
    }
  }

  lemma DeleteUnsettles(level: Level, s: State, a: nat, gc: Gc, stage: GcStage)
    requires !level.AtLeast(L2) && Unsettled(s.disk) && a in s.actors && !Scanning(stage) && !Finishing(stage)
    requires stage == JournalSynced ==> gc.victims != []
    ensures Unsettled(GcDelete(level, s, a, gc, stage).disk)
  {
    PointersUnsettle(s.disk, s.tmp.head, s.tmp.journal);
    if stage == JournalSynced {
      WriteUnsettles(s.disk, gc.victims[0], Absent);
    }
  }

  lemma GcUnsettles(level: Level, s: State, a: nat, choice: set<nat>)
    requires !level.AtLeast(L2) && Unsettled(s.disk) && Enabled(level, s, GcStep(a, choice))
    ensures Unsettled(DoGc(level, s, a, choice).disk)
  {
    var p := s.actors[a].phase;
    if Scanning(p.stage) {
      ScanDisk(s, a, p.gc, p.stage, choice);
    } else if Finishing(p.stage) {
      SweepDisk(level, s, a, p.gc, p.stage, choice);
    } else {
      DeleteUnsettles(level, s, a, p.gc, p.stage);
    }
  }

  lemma StepUnsettles(level: Level, s: State, step: Step)
    requires !level.AtLeast(L2) && Unsettled(s.disk) && Enabled(level, s, step)
    ensures Unsettled(Do(level, s, step).disk)
  {
    match step
    case PubStep(a) => PubUnsettles(level, s, a);
    case GcStep(a, choice) => GcUnsettles(level, s, a, choice);
    case OpenStep(a) => assert DoOpen(s, a).disk == s.disk;
    case _ =>
  }

  lemma {:induction false} RunUnsettled(level: Level, run: seq<State>, i: nat)
    requires !level.AtLeast(L2) && IsRun(level, run) && i < |run|
    ensures Unsettled(run[i].disk)
  {
    if i > 0 {
      RunUnsettled(level, run, i - 1);
      var step := StepTaken(level, run, i - 1);
      StepUnsettles(level, run[i - 1], step);
    }
  }

  /** The same directory with nothing in it. */
  function Emptied(d: Disk): Disk {
    Disk(map g | g in d.gens :: Slot(Absent, {}), Slot(Absent, {}), Slot(Absent, {}))
  }

  /** Without directory barriers a crash of the machine may empty the store, at any moment of any run. */
  lemma UnsyncedStoreCanVanish(level: Level, run: seq<State>, i: nat)
    requires !level.AtLeast(L2) && IsRun(level, run) && i < |run|
    ensures run[i].disk.CrashOutcome(Emptied(run[i].disk))
    ensures AckSurvives(run[i], Emptied(run[i].disk)) <==> run[i].acked == map[]
  {
    RunUnsettled(level, run, i);
    var d := run[i].disk;
    forall g | g in d.gens ensures d.gens[g].Survives(Emptied(d).gens[g]) {
      assert d.GenSlot(g) == d.gens[g];
    }
  }

  /** So the first publish can be acknowledged and then lost. */
  lemma UnsyncedAckLost(level: Level) returns (run: seq<State>, after: Disk)
    requires !level.AtLeast(L2)
    ensures IsRun(level, run) && run[|run| - 1].disk.CrashOutcome(after)
    ensures !AckSurvives(run[|run| - 1], after)
  {
    run := PublishMany(level, 0, "");
    var n := |run[|run| - 1].log|;
    run := Publish(level, run, 0, "");
    assert n in Last(run).acked;
    UnsyncedStoreCanVanish(level, run, |run| - 1);
    after := Emptied(Last(run).disk);
  }

  /** Acknowledged commits survive every crash outcome exactly at the levels that sync directories. */
  lemma AcksAreDurableIffDirectoriesAreSynced(level: Level)
    ensures AcksAreDurable(level) <==> level.AtLeast(L2)
  {
    if level.AtLeast(L2) {
      forall run: seq<State>, i: nat, after: Disk {:trigger IsRun(level, run), run[i].disk.CrashOutcome(after)} |
        IsRun(level, run) && i < |run| && run[i].disk.CrashOutcome(after)
        ensures AckSurvives(run[i], after)
      {
        CrashLeavesASoundStore(level, run, i, after);
      }
    } else {
      var run, after := UnsyncedAckLost(level);
      assert run[|run| - 1].disk.CrashOutcome(after);
    }
  }

  // -- Whole files ------------------------------------------------------------------------------------

  /** What a crash leaves under a name is something that was written whole. */
  ghost predicate WholeEntry<T(!new)>(before: Slot<T>, after: Slot<T>) {
    after.now.Present? ==> exists e :: e in before.Outcomes() && e.Present? && e.val == after.now.val
  }

  ghost predicate Untorn(d: Disk, after: Disk) {
    && (forall g: nat :: WholeEntry(d.GenSlot(g), after.GenSlot(g)))
    && WholeEntry(d.head, after.head) && WholeEntry(d.journal, after.journal)
  }

  ghost predicate NothingTears(level: Level) {
    forall run: seq<State>, i: nat, after: Disk {:trigger IsRun(level, run), run[i].disk.CrashOutcome(after)} ::
      IsRun(level, run) && i < |run| && run[i].disk.CrashOutcome(after) ==> Untorn(run[i].disk, after)
  }

  ghost predicate SlotSynced<T(!new)>(slot: Slot<T>) {
    forall e :: e in slot.Outcomes() && e.Present? ==> e.synced
  }

  /** Every file was forced to storage before it got its name. */
  ghost predicate FilesSynced(d: Disk) {
    (forall g: nat :: SlotSynced(d.GenSlot(g))) && SlotSynced(d.head) && SlotSynced(d.journal)
  }

  lemma WholeWhenSynced<T(!new)>(before: Slot<T>, after: Slot<T>)
    requires SlotSynced(before) && before.Survives(after)
    ensures WholeEntry(before, after) && SlotSynced(after)
  {
    var e :| e in before.Outcomes() && EntrySurvives(e, after.now);
  }

  lemma SyncedCrash(d: Disk, after: Disk)
    requires FilesSynced(d) && d.CrashOutcome(after)
    ensures Untorn(d, after) && FilesSynced(after)
  {
    forall g: nat ensures WholeEntry(d.GenSlot(g), after.GenSlot(g)) && SlotSynced(after.GenSlot(g)) {
      if g in d.gens {
        assert d.GenSlot(g) == d.gens[g] && after.GenSlot(g) == after.gens[g];
        WholeWhenSynced(d.GenSlot(g), after.GenSlot(g));
      }
    }
    WholeWhenSynced(d.head, after.head);
    WholeWhenSynced(d.journal, after.journal);
  }

  lemma WriteSyncs(d: Disk, g: nat, file: Entry<Snapshot>)
    requires FilesSynced(d) && (file.Present? ==> file.synced)
    ensures FilesSynced(d.RenameGen(g, file)) && FilesSynced(d.UnlinkGen(g))
  {
    var e, f := d.RenameGen(g, file), d.UnlinkGen(g);
    forall h: nat ensures SlotSynced(e.GenSlot(h)) && SlotSynced(f.GenSlot(h)) {
      assert SlotSynced(d.GenSlot(h));
    }
  }

  lemma PointersSync(d: Disk, head: Entry<nat>, journal: Entry<set<nat>>)
    requires FilesSynced(d) && (head.Present? ==> head.synced) && (journal.Present? ==> journal.synced)
    ensures FilesSynced(d.RenameHead(head)) && FilesSynced(d.RenameJournal(journal))
  {
    var e, f := d.RenameHead(head), d.RenameJournal(journal);
    forall h: nat ensures SlotSynced(e.GenSlot(h)) && SlotSynced(f.GenSlot(h)) {
      assert SlotSynced(d.GenSlot(h));
    }
  }

  lemma DirsyncSyncs(d: Disk)
    requires FilesSynced(d)
    ensures FilesSynced(d.Dirsync())
  {
    DirsyncSettles(d);
    forall h: nat ensures SlotSynced(d.Dirsync().GenSlot(h)) {
      assert SlotSynced(d.GenSlot(h));
    }
  }

  lemma PubSyncs(level: Level, s: State, a: nat)
    requires level.AtLeast(L1) && FilesSynced(s.disk) && Enabled(level, s, PubStep(a)) && ActorInv(level, s, a)
    ensures FilesSynced(DoPub(level, s, a).disk)
  {
    DirsyncSyncs(s.disk);
    if s.actors[a].phase.pub == BaseChecked {
      WriteSyncs(s.disk, s.actors[a].phase.snap.generation, s.tmp.gens[a].file);
    } else if s.actors[a].phase.pub == HeadFileSynced {
      PointersSync(s.disk, s.tmp.head, Absent);
    }
  }

  lemma GcSyncs(level: Level, s: State, a: nat, choice: set<nat>)
    requires level.AtLeast(L1) && FilesSynced(s.disk) && Enabled(level, s, GcStep(a, choice))
    requires ActorInv(level, s, a)
    ensures FilesSynced(DoGc(level, s, a, choice).disk)
  {
    GcDiskStep(level, s, a, choice);
    DirsyncSyncs(s.disk);
    if s.actors[a].phase.stage == JournalFileSynced {
      PointersSync(s.disk, Absent, s.tmp.journal);
    } else if s.actors[a].phase.stage == JournalSynced {
      WriteSyncs(s.disk, s.actors[a].phase.gc.victims[0], Absent);
    }
  }

  lemma {:induction false} RunSynced(level: Level, run: seq<State>, i: nat)
    requires level.AtLeast(L1) && IsRun(level, run) && i < |run|
    ensures FilesSynced(run[i].disk)
  {
    if i > 0 {
      RunSynced(level, run, i - 1);
      var step := NextStep(level, run, i - 1);
      StepSyncs(level, run[i - 1], step);
    }
  }

  lemma StepSyncs(level: Level, s: State, step: Step)
    requires level.AtLeast(L1) && Inv(level, s) && Enabled(level, s, step) && FilesSynced(s.disk)
    ensures FilesSynced(Do(level, s, step).disk)
  {
    match step
    case PubStep(a) =>
      assert ActorInv(level, s, a);
      PubSyncs(level, s, a);
    case GcStep(a, choice) =>
      assert ActorInv(level, s, a);
      GcSyncs(level, s, a, choice);
    case OsCrash(after, _) => SyncedCrash(s.disk, after);
    case OpenStep(a) => OpenFrame(s, a);
    case _ =>
  }

  /** Without file barriers a crash may leave a generation file that nobody wrote. */
  lemma UnsyncedFileTears() returns (run: seq<State>, after: Disk)
    ensures IsRun(L0, run) && run[|run| - 1].disk.CrashOutcome(after) && !Untorn(run[|run| - 1].disk, after)
  {
    run := NamesUnsyncedFile();
    var d := Last(run).disk;
    var content := NotAmong(d.GenSlot(0).Outcomes());
    after := TornFirst(d, content);
    TornOutcome(d, content);
  }

  /** The first publication, up to the rename of a generation file that was never forced to storage. */
  lemma NamesUnsyncedFile() returns (run: seq<State>)
    ensures IsRun(L0, run)
    ensures var slot := run[|run| - 1].disk.GenSlot(0); slot.now.Present? && !slot.now.synced
  {
    run := PublishMany(L0, 0, "");
    var s, snap := Last(run), Snapshot(0, "whole");
    run := StartOne(L0, run, 0, snap);
    run := PublishUpTo(L0, run, s, 0, snap, Staged, GenRenamed);
    UnsyncedInRun(run, s, snap);
  }

  lemma UnsyncedInRun(run: seq<State>, s: State, snap: Snapshot)
    requires IsRun(L0, run) && During(s, Last(run), 0, snap, GenRenamed)
    ensures Last(run).disk.GenSlot(snap.generation).now == Present(snap, false)
  {
    RunInv(L0, run, |run| - 1);
    UnsyncedName(Last(run), s.nextActor);
  }

  lemma UnsyncedName(s: State, a: nat)
    requires a in s.actors && ActorInv(L0, s, a)
    requires s.actors[a].phase.Publishing? && s.actors[a].phase.pub == GenRenamed
    ensures s.disk.GenSlot(s.actors[a].phase.snap.generation).now == Present(s.actors[a].phase.snap, false)
  {
  }

  predicate AllShorter(entries: set<Entry<Snapshot>>, n: nat) {
    forall e :: e in entries && e.Present? ==> |e.val.body| < n
  }

  lemma {:induction false} LongerThanAll(entries: set<Entry<Snapshot>>) returns (n: nat)
    ensures AllShorter(entries, n)
  {
    n := 0;
    if x :| x in entries {
      n := LongerThanAll(entries - {x});
      if x.Present? && |x.val.body| >= n { n := |x.val.body| + 1; }
    }
  }

  /** A content outside a finite set of entries. */
  lemma NotAmong(entries: set<Entry<Snapshot>>) returns (content: Snapshot)
    ensures forall e :: e in entries && e.Present? ==> e.val != content
  {
    var n := LongerThanAll(entries);
    content := Snapshot(0, seq(n, _ => ' '));
  }

  /** Everything as it is read now, but for the content of generation 0. */
  function TornFirst(d: Disk, content: Snapshot): Disk {
    Disk(map g | g in d.gens :: if g == 0 then Slot(Present(content, false), {}) else d.gens[g].Sync(),
         d.head.Sync(), d.journal.Sync())
  }

  lemma TornOutcome(d: Disk, content: Snapshot)
    requires d.GenSlot(0).now.Present? && !d.GenSlot(0).now.synced
    requires forall e :: e in d.GenSlot(0).Outcomes() && e.Present? ==> e.val != content
    ensures d.CrashOutcome(TornFirst(d, content)) && !Untorn(d, TornFirst(d, content))
  {
    var after := TornFirst(d, content);
    assert 0 in d.gens && d.GenSlot(0) == d.gens[0];
    assert after.GenSlot(0).now == Present(content, false);
    forall g | g in d.gens ensures d.gens[g].Survives(after.gens[g]) {
      assert d.gens[g].now in d.gens[g].Outcomes();
      assert EntrySurvives(d.gens[g].now, after.gens[g].now);
    }
    assert EntrySurvives(d.head.now, after.head.now) && EntrySurvives(d.journal.now, after.journal.now);
    assert !WholeEntry(d.GenSlot(0), after.GenSlot(0));
  }

  /** A crash leaves only files that were written whole exactly at the levels that sync files. */
  lemma NothingTearsIffFilesAreSynced(level: Level)
    ensures NothingTears(level) <==> level.AtLeast(L1)
  {
    if level.AtLeast(L1) {
      forall run: seq<State>, i: nat, after: Disk {:trigger IsRun(level, run), run[i].disk.CrashOutcome(after)} |
        IsRun(level, run) && i < |run| && run[i].disk.CrashOutcome(after)
        ensures Untorn(run[i].disk, after)
      {
        RunSynced(level, run, i);
        SyncedCrash(run[i].disk, after);
      }
    } else {
      var run, after := UnsyncedFileTears();
      assert run[|run| - 1].disk.CrashOutcome(after);
    }
  }
}
