/** Every step of the store machine keeps the invariant. */
module StoreSteps {
  import opened Options
  import opened StoreDisk
  import opened Retention
  import opened StoreMachine
  import opened StoreDiskSafety
  import opened StoreInvariant

  lemma KillKeeps(level: Level, s: State, pid: nat)
    requires Inv(level, s) && pid in s.alive
    ensures Inv(level, DoKill(s, pid))
  {
    var t := DoKill(s, pid);
    forall b | b in t.actors ensures ActorInv(level, t, b) {
      UnlockedKeepsOther(level, s, t, b);
    }
  }

  lemma OsCrashKeeps(level: Level, s: State, after: Disk, left: Staging)
    requires Inv(level, s) && level.AtLeast(L2) && s.disk.CrashOutcome(after)
    ensures Inv(level, DoOsCrash(s, after, left))
  {
    CrashKeeps(level, s.disk, s.log, s.acked.Keys, s.crashed, after);
    OsCrashBooks(s, after, left);
  }

  lemma OsCrashBooks(s: State, after: Disk, left: Staging)
    requires Bookkeeping(s) && Length(after.head.now) <= |s.log|
    requires forall g :: g in s.acked ==> g < Length(after.head.now)
    ensures Bookkeeping(DoOsCrash(s, after, left))
  {
  }

  lemma StartKeeps(level: Level, s: State, pid: nat, phase: Phase, tmp: Staging)
    requires Inv(level, s) && pid in s.alive && Starting(s, phase, tmp)
    ensures Inv(level, Start(s.(tmp := tmp), pid, phase))
  {
    var t := Start(s.(tmp := tmp), pid, phase);
    NextIsNew(level, s);
    StartBooks(s, pid, phase, tmp);
    forall b | b in t.actors ensures ActorInv(level, t, b) {
      if b == s.nextActor {
        assert forall i :: 0 <= i < |s.log| ==> s.log[i].writer < s.nextActor;
        StartedInv(level, s, pid, phase, tmp);
      } else {
        assert ActorInv(level, s, b);
        StartDisturbsNobody(level, s, pid, phase, tmp, b);
      }
    }
  }

  /** A call in its first phase, and at most one staging file of its own. */
  predicate Starting(s: State, phase: Phase, tmp: Staging) {
    && tmp.head == s.tmp.head && tmp.journal == s.tmp.journal
    && (forall b :: b in tmp.gens && b != s.nextActor ==> b in s.tmp.gens && tmp.gens[b] == s.tmp.gens[b])
    && (phase.Opening? || phase.Publishing? || phase.Collecting?)
    && (phase.Publishing? ==> phase.pub == Staged && FollowsBase(phase.base, phase.snap))
    && (phase.Publishing? && s.nextActor in tmp.gens ==> tmp.gens[s.nextActor].file == Present(phase.snap, false))
    && (phase.Collecting? ==> phase.stage == Waiting && ValidSchedule(phase.gc.schedule))
  }

  lemma StartBooks(s: State, pid: nat, phase: Phase, tmp: Staging)
    requires Bookkeeping(s) && s.nextActor !in s.actors
    ensures Bookkeeping(Start(s.(tmp := tmp), pid, phase))
  {
  }

  lemma StartedInv(level: Level, s: State, pid: nat, phase: Phase, tmp: Staging)
    requires pid in s.alive && Starting(s, phase, tmp)
    requires forall i :: 0 <= i < |s.log| ==> s.log[i].writer < s.nextActor
    ensures ActorInv(level, Start(s.(tmp := tmp), pid, phase), s.nextActor)
  {
  }

  lemma StartDisturbsNobody(level: Level, s: State, pid: nat, phase: Phase, tmp: Staging, b: nat)
    requires b in s.actors && b != s.nextActor && ActorInv(level, s, b) && Starting(s, phase, tmp)
    ensures ActorInv(level, Start(s.(tmp := tmp), pid, phase), b)
  {
    UnlockedKeepsOther(level, s, Start(s.(tmp := tmp), pid, phase), b);
  }

  lemma ActorNumbered(level: Level, s: State, a: nat)
    requires Inv(level, s) && a in s.actors
    ensures a < s.nextActor
  {
    assert ActorInv(level, s, a);
  }

  lemma NextIsNew(level: Level, s: State)
    requires Inv(level, s)
    ensures s.nextActor !in s.actors
  {
    forall a | a in s.actors ensures a < s.nextActor {
      ActorNumbered(level, s, a);
    }
  }

  lemma FinishKeeps(level: Level, s: State, a: nat)
    requires Inv(level, s) && a in s.actors
    ensures Inv(level, Finish(s, a))
  {
    var t := Finish(s, a);
    forall b | b in t.actors ensures ActorInv(level, t, b) {
      assert ActorInv(level, s, b);
      UnlockedKeepsOther(level, s, t, b);
    }
  }

  lemma RepairKeeps(level: Level, s: State, file: StagingFile)
    requires Inv(level, s)
    ensures Inv(level, s.(tmp := Unstage(s.tmp, file)))
  {
    var t := s.(tmp := Unstage(s.tmp, file));
    forall b | b in t.actors ensures ActorInv(level, t, b) {
      assert ActorInv(level, s, b);
      UnlockedKeepsOther(level, s, t, b);
    }
  }

  // -- Publishing ------------------------------------------------------------------------------

  /** What a publisher's own step leaves for the rest of the proof. */
  ghost predicate PubAfter(level: Level, s: State, t: State, a: nat)
    requires a in s.actors && s.actors[a].phase.Publishing?
  {
    && a in t.actors && t.actors[a].phase.Publishing? && t.actors[a].pid == s.actors[a].pid
    && PubInv(level, t, a, t.actors[a].phase)
    && DiskInv(level, t.disk, t.log, t.acked.Keys, t.crashed)
    && t.acked == s.acked
    && (forall g: nat :: s.disk.Has(g) ==> t.disk.Has(g))
  }

  lemma PubQuiet(level: Level, s: State, a: nat)
    requires DiskOk(level, s) && a in s.actors && ActorInv(level, s, a) && s.actors[a].phase.Publishing?
    requires PubEnabled(level, s, a, s.actors[a].phase)
    requires s.actors[a].phase.pub in {Staged, FileSynced, Locked, GenSynced, HeadStaged}
    ensures PubAfter(level, s, DoPub(level, s, a), a)
    ensures DoPub(level, s, a).log == s.log
  {
    var t := DoPub(level, s, a);
    assert t.disk == s.disk && t.log == s.log && t.acked == s.acked && t.crashed == s.crashed;
    if s.actors[a].phase.pub.Rank() < 3 { QuietEarly(level, s, a); } else { QuietLate(level, s, a); }
  }

  ghost predicate DiskOk(level: Level, s: State) {
    DiskInv(level, s.disk, s.log, s.acked.Keys, s.crashed)
  }

  lemma QuietEarly(level: Level, s: State, a: nat)
    requires a in s.actors && ActorInv(level, s, a) && s.actors[a].phase.Publishing?
    requires PubEnabled(level, s, a, s.actors[a].phase) && Length(s.disk.head.now) == |s.log|
    requires s.actors[a].phase.pub in {Staged, FileSynced, Locked}
    ensures PubInv(level, DoPub(level, s, a), a, DoPub(level, s, a).actors[a].phase)
  {
  }

  lemma QuietLate(level: Level, s: State, a: nat)
    requires a in s.actors && ActorInv(level, s, a) && s.actors[a].phase.Publishing?
    requires s.actors[a].phase.pub in {GenSynced, HeadStaged}
    ensures PubInv(level, DoPub(level, s, a), a, DoPub(level, s, a).actors[a].phase)
  {
  }

  lemma PubRenamesGen(level: Level, s: State, a: nat)
    requires DiskOk(level, s) && a in s.actors && ActorInv(level, s, a) && s.actors[a].phase.Publishing?
    requires PubEnabled(level, s, a, s.actors[a].phase)
    requires s.actors[a].phase.pub == BaseChecked
    ensures PubAfter(level, s, DoPub(level, s, a), a)
    ensures DoPub(level, s, a).log == s.log
  {
    var file := s.tmp.gens[a].file;
    RenameGenKeeps(level, s.disk, s.log, s.acked.Keys, s.crashed, file);
    RenamedGen(s.disk, |s.log|, file);
    var t := DoPub(level, s, a);
    assert t.disk == s.disk.RenameGen(|s.log|, file) && t.acked == s.acked && t.crashed == s.crashed;
    SelfRenamesGen(level, s, a);
  }

  lemma RenamedGen(d: Disk, g: nat, file: Entry<Snapshot>)
    requires file.Present?
    ensures d.RenameGen(g, file).GenSlot(g).now == file
    ensures forall h: nat :: d.Has(h) ==> d.RenameGen(g, file).Has(h)
  {
  }

  lemma SelfRenamesGen(level: Level, s: State, a: nat)
    requires a in s.actors && ActorInv(level, s, a) && s.actors[a].phase.Publishing?
    requires PubEnabled(level, s, a, s.actors[a].phase)
    requires s.actors[a].phase.pub == BaseChecked
    ensures PubInv(level, DoPub(level, s, a), a, DoPub(level, s, a).actors[a].phase)
  {
    RenamedGen(s.disk, |s.log|, s.tmp.gens[a].file);
  }

  lemma PubSyncsDir(level: Level, s: State, a: nat)
    requires DiskOk(level, s) && a in s.actors && ActorInv(level, s, a) && s.actors[a].phase.Publishing?
    requires s.actors[a].phase.pub == GenRenamed || s.actors[a].phase.pub == HeadRenamed
    ensures PubAfter(level, s, DoPub(level, s, a), a)
    ensures DoPub(level, s, a).log == s.log
  {
    DirsyncKeeps(level, s.disk, s.log, s.acked.Keys, s.crashed);
    DirsyncSettles(s.disk);
    PubSelfSyncsDir(level, s, a);
  }

  lemma DirsyncSettles(d: Disk)
    ensures forall g: nat :: d.Dirsync().GenSlot(g) == d.GenSlot(g).Sync()
    ensures forall g: nat :: d.Dirsync().Has(g) == d.Has(g)
  {
  }

  lemma PubSelfSyncsDir(level: Level, s: State, a: nat)
    requires a in s.actors && ActorInv(level, s, a) && s.actors[a].phase.Publishing?
    requires s.actors[a].phase.pub == GenRenamed || s.actors[a].phase.pub == HeadRenamed
    ensures PubInv(level, DoPub(level, s, a), a, DoPub(level, s, a).actors[a].phase)
  {
    DirsyncSettles(s.disk);
  }

  lemma PubRenamesHead(level: Level, s: State, a: nat)
    requires DiskOk(level, s) && a in s.actors && ActorInv(level, s, a) && s.actors[a].phase.Publishing?
    requires PubEnabled(level, s, a, s.actors[a].phase)
    requires s.actors[a].phase.pub == HeadFileSynced
    ensures PubAfter(level, s, DoPub(level, s, a), a)
    ensures DoPub(level, s, a).log == s.log + [Commit(s.actors[a].phase.snap, a)]
  {
    var c := Commit(s.actors[a].phase.snap, a);
    RenameHeadKeeps(level, s.disk, s.log, s.acked.Keys, s.crashed, s.tmp.head, c);
    var t := DoPub(level, s, a);
    assert t.disk == s.disk.RenameHead(s.tmp.head) && t.log == s.log + [c] && t.acked == s.acked &&
        t.crashed == s.crashed;
    assert forall g: nat :: t.disk.Has(g) == s.disk.Has(g);
    SelfRenamesHead(level, s, a);
  }

  lemma SelfRenamesHead(level: Level, s: State, a: nat)
    requires a in s.actors && ActorInv(level, s, a) && s.actors[a].phase.Publishing?
    requires PubEnabled(level, s, a, s.actors[a].phase)
    requires s.actors[a].phase.pub == HeadFileSynced
    ensures PubInv(level, DoPub(level, s, a), a, DoPub(level, s, a).actors[a].phase)
  {
  }

  lemma PubKeeps(level: Level, s: State, a: nat)
    requires Inv(level, s) && a in s.actors && s.actors[a].phase.Publishing?
    requires PubEnabled(level, s, a, s.actors[a].phase)
    ensures Inv(level, DoPub(level, s, a))
  {
    var p := s.actors[a].phase;
    assert ActorInv(level, s, a);
    match p.pub
    case HeadSynced =>
      AckKeeps(level, s, a);
      FinishKeeps(level, s.(acked := s.acked[p.snap.generation := p.snap]), a);
    case BaseChecked =>
      PubRenamesGen(level, s, a);
      PubInvAfter(level, s, a);
    case GenRenamed =>
      PubSyncsDir(level, s, a);
      PubInvAfter(level, s, a);
    case HeadRenamed =>
      PubSyncsDir(level, s, a);
      PubInvAfter(level, s, a);
    case HeadFileSynced =>
      PubRenamesHead(level, s, a);
      PubInvAfter(level, s, a);
    case _ =>
      PubQuiet(level, s, a);
      PubInvAfter(level, s, a);
  }

  lemma PubInvAfter(level: Level, s: State, a: nat)
    requires Inv(level, s) && a in s.actors && s.actors[a].phase.Publishing?
    requires PubEnabled(level, s, a, s.actors[a].phase) && s.actors[a].phase.pub != HeadSynced
    requires PubAfter(level, s, DoPub(level, s, a), a)
    ensures Inv(level, DoPub(level, s, a))
  {
    var t := DoPub(level, s, a);
    assert ActorInv(level, s, a);
    PubBooks(level, s, a);
    PubPins(level, s, a);
    forall b | b in t.actors ensures ActorInv(level, t, b) {
      if b == a {
        PubSelfInv(level, s, a);
      } else {
        assert ActorInv(level, s, b);
        PubDisturbsNobody(level, s, a, b);
      }
    }
  }

  lemma PubBooks(level: Level, s: State, a: nat)
    requires Bookkeeping(s) && a in s.actors && ActorInv(level, s, a) && s.actors[a].phase.Publishing?
    requires PubEnabled(level, s, a, s.actors[a].phase) && s.actors[a].phase.pub != HeadSynced
    ensures Bookkeeping(DoPub(level, s, a))
  {
    if s.actors[a].phase.pub == HeadFileSynced { CommitBooks(level, s, a); } else { QuietBooks(level, s, a); }
  }

  lemma CommitBooks(level: Level, s: State, a: nat)
    requires Bookkeeping(s) && a in s.actors && ActorInv(level, s, a) && s.actors[a].phase.Publishing?
    requires PubEnabled(level, s, a, s.actors[a].phase) && s.actors[a].phase.pub == HeadFileSynced
    ensures Bookkeeping(DoPub(level, s, a))
  {
  }

  lemma QuietBooks(level: Level, s: State, a: nat)
    requires Bookkeeping(s) && a in s.actors && ActorInv(level, s, a) && s.actors[a].phase.Publishing?
    requires PubEnabled(level, s, a, s.actors[a].phase)
    requires s.actors[a].phase.pub != HeadSynced && s.actors[a].phase.pub != HeadFileSynced
    ensures Bookkeeping(DoPub(level, s, a))
  {
    var t := DoPub(level, s, a);
    QuietFrame(level, s, a);
    assert t.lock.Some? ==> t.lock.value in t.actors && HoldsLock(t.actors[t.lock.value].phase);
  }

  lemma QuietFrame(level: Level, s: State, a: nat)
    requires a in s.actors && s.actors[a].phase.Publishing? && PubEnabled(level, s, a, s.actors[a].phase)
    requires s.actors[a].phase.pub != HeadSynced && s.actors[a].phase.pub != HeadFileSynced
    ensures var t := DoPub(level, s, a);
      && t.log == s.log && t.acked == s.acked && t.pins == s.pins && t.nextPin == s.nextPin
      && t.alive == s.alive && t.dead == s.dead && t.nextActor == s.nextActor
      && t.actors == s.actors[a := Actor(s.actors[a].pid, t.actors[a].phase)]
      && (HoldsLock(s.actors[a].phase) ==> HoldsLock(t.actors[a].phase))
      && (t.lock == s.lock || (t.lock == Some(a) && HoldsLock(t.actors[a].phase)))
  {
  }

  lemma PubPins(level: Level, s: State, a: nat)
    requires PinsHold(s) && a in s.actors && s.actors[a].phase.Publishing?
    requires PubEnabled(level, s, a, s.actors[a].phase) && s.actors[a].phase.pub != HeadSynced
    requires forall g: nat :: s.disk.Has(g) ==> DoPub(level, s, a).disk.Has(g)
    ensures PinsHold(DoPub(level, s, a))
  {
    var t := DoPub(level, s, a);
    assert t.pins == s.pins && t.alive == s.alive && |s.log| <= |t.log|;
    assert forall pin: nat :: PinnerAlive(t, pin) ==> PinnerAlive(s, pin);
  }

  lemma PubSelfInv(level: Level, s: State, a: nat)
    requires a in s.actors && ActorInv(level, s, a) && s.actors[a].phase.Publishing?
    requires PubEnabled(level, s, a, s.actors[a].phase) && s.actors[a].phase.pub != HeadSynced
    requires PubInv(level, DoPub(level, s, a), a, DoPub(level, s, a).actors[a].phase)
    ensures ActorInv(level, DoPub(level, s, a), a)
  {
  }

  lemma PubDisturbsNobody(level: Level, s: State, a: nat, b: nat)
    requires a in s.actors && ActorInv(level, s, a) && s.actors[a].phase.Publishing?
    requires PubEnabled(level, s, a, s.actors[a].phase) && s.actors[a].phase.pub != HeadSynced
    requires b in s.actors && b != a && ActorInv(level, s, b)
    ensures ActorInv(level, DoPub(level, s, a), b)
  {
    var t := DoPub(level, s, a);
    if s.actors[a].phase.pub.Rank() < 2 {
      assert Undisturbed(s, t, b);
      UnlockedKeepsOther(level, s, t, b);
    } else {
      assert t.log == s.log || t.log == s.log + [Commit(s.actors[a].phase.snap, a)];
      assert LockStep(s, t, a, b);
      LockedKeepsOther(level, s, t, a, b);
    }
  }

  lemma AckBooks(level: Level, s: State, a: nat)
    requires DiskOk(level, s) && Bookkeeping(s) && a in s.actors && ActorInv(level, s, a)
    requires s.actors[a].phase.Publishing? && s.actors[a].phase.pub == HeadSynced
    ensures var snap := s.actors[a].phase.snap;
      var t := s.(acked := s.acked[snap.generation := snap]);
      DiskOk(level, t) && Bookkeeping(t)
  {
    assert s.disk.head.past == {} ==> s.disk.head.Outcomes() == {s.disk.head.now};
  }

  /** Acknowledging is sound because the final barrier left HEAD no older outcome. */
  lemma AckKeeps(level: Level, s: State, a: nat)
    requires Inv(level, s) && a in s.actors && s.actors[a].phase.Publishing?
    requires s.actors[a].phase.pub == HeadSynced
    ensures var snap := s.actors[a].phase.snap;
      Inv(level, s.(acked := s.acked[snap.generation := snap]))
  {
    var snap := s.actors[a].phase.snap;
    var t := s.(acked := s.acked[snap.generation := snap]);
    assert ActorInv(level, s, a);
    AckBooks(level, s, a);
    forall b | b in t.actors ensures ActorInv(level, t, b) {
      assert ActorInv(level, s, b);
      AckKeepsActor(level, s, snap, b);
    }
  }

  lemma AckKeepsActor(level: Level, s: State, snap: Snapshot, b: nat)
    requires b in s.actors && ActorInv(level, s, b)
    ensures ActorInv(level, s.(acked := s.acked[snap.generation := snap]), b)
  {
  }

  // -- Collecting ------------------------------------------------------------------------------

  lemma GcDisk(level: Level, s: State, a: nat, choice: set<nat>)
    requires Inv(level, s) && a in s.actors && s.actors[a].phase.Collecting?
    requires GcEnabled(s, s.actors[a].phase, choice)
    ensures DiskInv(level, DoGc(level, s, a, choice).disk, s.log, s.acked.Keys, s.crashed)
  {
    var p := s.actors[a].phase;
    assert ActorInv(level, s, a);
    GcDiskStep(level, s, a, choice);
    if p.stage == JournalFileSynced || p.stage == JournalSynced {
      assert p.gc.victims[0] in p.gc.victims;
    }
    if p.stage == JournalFileSynced {
      RenameJournalKeeps(level, s.disk, s.log, s.acked.Keys, s.crashed, s.tmp.journal, p.gc.victims[0]);
    } else if p.stage == JournalSynced {
      UnlinkKeeps(level, s.disk, s.log, s.acked.Keys, s.crashed, p.gc.victims[0]);
    } else {
      DirsyncKeeps(level, s.disk, s.log, s.acked.Keys, s.crashed);
    }
  }

  /** A collector's step leaves the disk alone, syncs it, renames the journal or unlinks one victim. */
  lemma GcDiskStep(level: Level, s: State, a: nat, choice: set<nat>)
    requires a in s.actors && s.actors[a].phase.Collecting?
    requires GcEnabled(s, s.actors[a].phase, choice)
    ensures var p := s.actors[a].phase; var d := DoGc(level, s, a, choice).disk;
      if p.stage == JournalFileSynced then d == s.disk.RenameJournal(s.tmp.journal)
      else if p.stage == JournalSynced then d == s.disk.UnlinkGen(p.gc.victims[0])
      else if Syncing(p.stage) then d == s.disk.DirsyncIf(level)
      else d == s.disk
  {
    var p := s.actors[a].phase;
    if Scanning(p.stage) {
      ScanDisk(s, a, p.gc, p.stage, choice);
    } else if Finishing(p.stage) {
      SweepDisk(level, s, a, p.gc, p.stage, choice);
    } else {
      DeleteDisk(level, s, a, p.gc, p.stage);
    }
  }

  lemma ScanDisk(s: State, a: nat, gc: Gc, stage: GcStage, choice: set<nat>)
    requires a in s.actors && Scanning(stage) && (stage == Listed ==> ValidSchedule(gc.schedule))
    ensures GcScan(s, a, gc, stage, choice).disk == s.disk
  {
  }

  lemma SweepDisk(level: Level, s: State, a: nat, gc: Gc, stage: GcStage, choice: set<nat>)
    requires a in s.actors && Finishing(stage)
    ensures var d := GcSweep(level, s, a, gc, stage, choice).disk;
      d == if stage == ManifestRenamed then s.disk.DirsyncIf(level) else s.disk
  {
  }

  lemma DeleteDisk(level: Level, s: State, a: nat, gc: Gc, stage: GcStage)
    requires a in s.actors && !Scanning(stage) && !Finishing(stage)
    requires stage == JournalSynced ==> gc.victims != []
    ensures var d := GcDelete(level, s, a, gc, stage).disk;
      if stage == JournalFileSynced then d == s.disk.RenameJournal(s.tmp.journal)
      else if stage == JournalSynced then d == s.disk.UnlinkGen(gc.victims[0])
      else if Syncing(stage) then d == s.disk.DirsyncIf(level)
      else d == s.disk
  {
  }

  predicate Syncing(stage: GcStage) {
    stage.JournalRenamed? || stage.Unlinked? || stage.ManifestRenamed?
  }

  /** What no collector's step touches. */
  lemma GcFrame(level: Level, s: State, a: nat, choice: set<nat>)
    requires a in s.actors && s.actors[a].phase.Collecting?
    requires GcEnabled(s, s.actors[a].phase, choice)
    ensures Framed(s, DoGc(level, s, a, choice), a)
    ensures DoGc(level, s, a, choice).pins == if s.actors[a].phase.stage == HeadRead then s.pins - choice else s.pins
    ensures !GcReturns(s, s.actors[a].phase) ==> GcGoesOn(s, DoGc(level, s, a, choice), a)
  {
    var p := s.actors[a].phase;
    if Scanning(p.stage) {
      ScanFrame(s, a, p.gc, p.stage, choice);
    } else if Finishing(p.stage) {
      SweepFrame(level, s, a, p.gc, p.stage, choice);
    } else {
      DeleteFrame(level, s, a, p.gc, p.stage);
    }
  }

  lemma ScanFrame(s: State, a: nat, gc: Gc, stage: GcStage, choice: set<nat>)
    requires a in s.actors && Scanning(stage) && s.actors[a].phase == Collecting(gc, stage)
    requires stage == Listed ==> ValidSchedule(gc.schedule)
    ensures var t := GcScan(s, a, gc, stage, choice);
      && Framed(s, t, a)
      && t.pins == (if stage == HeadRead then s.pins - choice else s.pins)
      && (!GcReturns(s, s.actors[a].phase) ==> GcGoesOn(s, t, a))
  {
  }

  lemma SweepFrame(level: Level, s: State, a: nat, gc: Gc, stage: GcStage, choice: set<nat>)
    requires a in s.actors && Finishing(stage) && s.actors[a].phase == Collecting(gc, stage)
    ensures var t := GcSweep(level, s, a, gc, stage, choice);
      && Framed(s, t, a) && t.pins == s.pins
      && (!GcReturns(s, s.actors[a].phase) ==> GcGoesOn(s, t, a))
  {
  }

  lemma DeleteFrame(level: Level, s: State, a: nat, gc: Gc, stage: GcStage)
    requires a in s.actors && !Scanning(stage) && !Finishing(stage) && s.actors[a].phase == Collecting(gc, stage)
    requires stage == JournalSynced ==> gc.victims != []
    ensures var t := GcDelete(level, s, a, gc, stage);
      && Framed(s, t, a) && t.pins == s.pins
      && (!GcReturns(s, s.actors[a].phase) ==> GcGoesOn(s, t, a))
  {
  }

  ghost predicate Framed(s: State, t: State, a: nat) {
    && t.log == s.log && t.acked == s.acked && t.crashed == s.crashed
    && t.alive == s.alive && t.dead == s.dead
    && t.nextActor == s.nextActor && t.nextPin == s.nextPin
    && (forall b :: b in s.actors && b != a ==> b in t.actors && t.actors[b] == s.actors[b])
    && (forall b :: b in t.actors && b != a ==> b in s.actors)
    && (forall b :: b in t.tmp.gens ==> b in s.tmp.gens && t.tmp.gens[b] == s.tmp.gens[b])
  }

  predicate GcGoesOn(s: State, t: State, a: nat)
    requires a in s.actors && s.actors[a].phase.Collecting?
  {
    && a in t.actors && t.actors[a].pid == s.actors[a].pid && t.actors[a].phase.Collecting?
    && HoldsLock(t.actors[a].phase)
    && t.lock == (if s.actors[a].phase.stage == Waiting then Some(a) else s.lock)
  }

  predicate GcReturns(s: State, p: Phase)
    requires p.Collecting?
  {
    || (p.stage == Entered && !s.disk.head.now.Present?)
    || (p.stage == Deleting && p.gc.victims == [] && !p.gc.compact)
    || p.stage == ManifestRenamed
  }

  lemma GcSelf(level: Level, s: State, a: nat, choice: set<nat>)
    requires a in s.actors && ActorInv(level, s, a) && s.actors[a].phase.Collecting?
    requires GcEnabled(s, s.actors[a].phase, choice) && !GcReturns(s, s.actors[a].phase)
    requires Length(s.disk.head.now) == |s.log|
    requires forall pin :: pin in s.pins ==> pin < s.nextPin
    ensures a in DoGc(level, s, a, choice).actors
    ensures ActorInv(level, DoGc(level, s, a, choice), a)
  {
    GcFrame(level, s, a, choice);
    var p := s.actors[a].phase;
    if p.stage == Listed {
      GcSelfProbes(level, s, a, choice);
    } else if Scanning(p.stage) {
      GcSelfReads(level, s, a, choice);
    } else if p.stage in {Deleting, JournalStaged, JournalFileSynced, JournalRenamed} {
      GcSelfJournals(level, s, a, choice);
    } else {
      GcSelfUnlinks(level, s, a, choice);
    }
  }

  ghost predicate GcNext(level: Level, t: State, a: nat)
  {
    a in t.actors && t.actors[a].phase.Collecting? && GcInv(level, t, t.actors[a].phase.gc, t.actors[a].phase.stage)
  }

  lemma GcSelfReads(level: Level, s: State, a: nat, choice: set<nat>)
    requires a in s.actors && s.actors[a].phase.Collecting?
    requires GcInv(level, s, s.actors[a].phase.gc, s.actors[a].phase.stage)
    requires GcEnabled(s, s.actors[a].phase, choice) && !GcReturns(s, s.actors[a].phase)
    requires Scanning(s.actors[a].phase.stage) && s.actors[a].phase.stage != Listed
    requires Length(s.disk.head.now) == |s.log|
    requires forall pin :: pin in s.pins ==> pin < s.nextPin
    ensures GcNext(level, DoGc(level, s, a, choice), a)
  {
  }

  lemma GcSelfProbes(level: Level, s: State, a: nat, choice: set<nat>)
    requires a in s.actors && s.actors[a].phase.Collecting?
    requires GcInv(level, s, s.actors[a].phase.gc, s.actors[a].phase.stage)
    requires GcEnabled(s, s.actors[a].phase, choice)
    requires s.actors[a].phase.stage == Listed
    ensures GcNext(level, DoGc(level, s, a, choice), a)
  {
    var gc := s.actors[a].phase.gc;
    var t := DoGc(level, s, a, choice);
    assert forall pin: nat :: PinnerAlive(t, pin) == PinnerAlive(s, pin);
    assert ListedInv(t, t.actors[a].phase.gc);
    assert VictimsInv(t, t.actors[a].phase.gc);
  }

  lemma GcSelfJournals(level: Level, s: State, a: nat, choice: set<nat>)
    requires a in s.actors && s.actors[a].phase.Collecting?
    requires GcInv(level, s, s.actors[a].phase.gc, s.actors[a].phase.stage)
    requires GcEnabled(s, s.actors[a].phase, choice) && !GcReturns(s, s.actors[a].phase)
    requires s.actors[a].phase.stage in {Deleting, JournalStaged, JournalFileSynced, JournalRenamed}
    ensures GcNext(level, DoGc(level, s, a, choice), a)
  {
    var gc := s.actors[a].phase.gc;
    var t := DoGc(level, s, a, choice);
    assert t.actors[a].phase.gc == gc;
    assert forall pin: nat :: PinnerAlive(t, pin) == PinnerAlive(s, pin);
    assert ListedInv(t, gc) && VictimsInv(t, gc);
  }

  lemma GcSelfUnlinks(level: Level, s: State, a: nat, choice: set<nat>)
    requires a in s.actors && s.actors[a].phase.Collecting?
    requires GcInv(level, s, s.actors[a].phase.gc, s.actors[a].phase.stage)
    requires GcEnabled(s, s.actors[a].phase, choice) && !GcReturns(s, s.actors[a].phase)
    requires s.actors[a].phase.stage in {JournalSynced, Unlinked, Sweeping, ManifestStaged}
    ensures GcNext(level, DoGc(level, s, a, choice), a)
  {
    var gc := s.actors[a].phase.gc;
    var t := DoGc(level, s, a, choice);
    var gc' := t.actors[a].phase.gc;
    assert forall v :: v in gc'.victims ==> v in gc.victims;
    assert forall pin: nat :: PinnerAlive(t, pin) == PinnerAlive(s, pin);
    assert ListedInv(t, gc') && VictimsInv(t, gc');
  }

  lemma GcBooks(level: Level, s: State, a: nat, choice: set<nat>)
    requires Bookkeeping(s) && a in s.actors && ActorInv(level, s, a) && s.actors[a].phase.Collecting?
    requires GcEnabled(s, s.actors[a].phase, choice) && !GcReturns(s, s.actors[a].phase)
    ensures Bookkeeping(DoGc(level, s, a, choice))
  {
    GcFrame(level, s, a, choice);
  }

  /** A victim carries no live pin that was made while it was HEAD. */
  lemma GcPins(level: Level, s: State, a: nat, choice: set<nat>)
    requires PinsHold(s) && a in s.actors && ActorInv(level, s, a) && s.actors[a].phase.Collecting?
    requires GcEnabled(s, s.actors[a].phase, choice) && !GcReturns(s, s.actors[a].phase)
    ensures PinsHold(DoGc(level, s, a, choice))
  {
    var p := s.actors[a].phase;
    GcFrame(level, s, a, choice);
    GcDiskStep(level, s, a, choice);
    DirsyncSettles(s.disk);
    PinsSurvive(level, s, DoGc(level, s, a, choice), p.gc, p.stage);
  }

  lemma PinsSurvive(level: Level, s: State, t: State, gc: Gc, stage: GcStage)
    requires PinsHold(s) && GcInv(level, s, gc, stage)
    requires t.log == s.log && t.alive == s.alive
    requires (forall pin :: pin in t.pins ==> pin in s.pins && t.pins[pin] == s.pins[pin])
    requires forall g: nat :: s.disk.Has(g) && !(stage == JournalSynced && g == gc.victims[0]) ==> t.disk.Has(g)
    ensures PinsHold(t)
  {
    forall pin: nat | PinnerAlive(t, pin) && t.pins[pin].atHead
      ensures t.pins[pin].gen < |t.log| && t.disk.Has(t.pins[pin].gen)
    {
      assert PinnerAlive(s, pin);
      if stage == JournalSynced {
        assert gc.victims[0] in gc.victims;
      }
    }
  }

  lemma GcDisturbsNobody(level: Level, s: State, a: nat, choice: set<nat>, b: nat)
    requires a in s.actors && ActorInv(level, s, a) && s.actors[a].phase.Collecting?
    requires GcEnabled(s, s.actors[a].phase, choice) && !GcReturns(s, s.actors[a].phase)
    requires b in s.actors && b != a && ActorInv(level, s, b)
    ensures b in DoGc(level, s, a, choice).actors && ActorInv(level, DoGc(level, s, a, choice), b)
  {
    GcFrame(level, s, a, choice);
    var t := DoGc(level, s, a, choice);
    var stage := s.actors[a].phase.stage;
    if stage == Waiting || stage == HeadRead {
      GcDiskStep(level, s, a, choice);
      assert t.tmp == s.tmp;
      assert Undisturbed(s, t, b);
      UnlockedKeepsOther(level, s, t, b);
    } else {
      assert LockStep(s, t, a, b);
      LockedKeepsOther(level, s, t, a, b);
    }
  }

  lemma GcActors(level: Level, s: State, a: nat, choice: set<nat>)
    requires a in s.actors && s.actors[a].phase.Collecting?
    requires forall b :: b in s.actors ==> ActorInv(level, s, b)
    requires GcEnabled(s, s.actors[a].phase, choice) && !GcReturns(s, s.actors[a].phase)
    requires Length(s.disk.head.now) == |s.log|
    requires forall pin :: pin in s.pins ==> pin < s.nextPin
    ensures forall b :: b in DoGc(level, s, a, choice).actors ==> ActorInv(level, DoGc(level, s, a, choice), b)
  {
    GcFrame(level, s, a, choice);
    var t := DoGc(level, s, a, choice);
    forall b | b in t.actors ensures ActorInv(level, t, b) {
      if b == a {
        GcSelf(level, s, a, choice);
      } else {
        GcDisturbsNobody(level, s, a, choice, b);
      }
    }
  }

  lemma GcKeeps(level: Level, s: State, a: nat, choice: set<nat>)
    requires Inv(level, s) && a in s.actors && s.actors[a].phase.Collecting?
    requires GcEnabled(s, s.actors[a].phase, choice)
    ensures Inv(level, DoGc(level, s, a, choice))
  {
    assert ActorInv(level, s, a);
    GcDisk(level, s, a, choice);
    GcFrame(level, s, a, choice);
    if GcReturns(s, s.actors[a].phase) {
      GcReturnKeeps(level, s, a, choice);
    } else {
      GcBooks(level, s, a, choice);
      GcPins(level, s, a, choice);
      GcActors(level, s, a, choice);
    }
  }

  lemma GcReturnKeeps(level: Level, s: State, a: nat, choice: set<nat>)
    requires Inv(level, s) && a in s.actors && s.actors[a].phase.Collecting?
    requires GcEnabled(s, s.actors[a].phase, choice) && GcReturns(s, s.actors[a].phase)
    requires DiskInv(level, DoGc(level, s, a, choice).disk, s.log, s.acked.Keys, s.crashed)
    ensures Inv(level, DoGc(level, s, a, choice))
  {
    assert ActorInv(level, s, a);
    if s.actors[a].phase.stage == ManifestRenamed {
      ReturnAfterSync(level, s, a, DoGc(level, s, a, choice));
    } else {
      FinishKeeps(level, s, a);
      ReturnIsFinish(level, s, a, choice);
    }
  }

  lemma ReturnIsFinish(level: Level, s: State, a: nat, choice: set<nat>)
    requires a in s.actors && s.actors[a].phase.Collecting? && GcEnabled(s, s.actors[a].phase, choice)
    requires GcReturns(s, s.actors[a].phase) && s.actors[a].phase.stage != ManifestRenamed
    ensures DoGc(level, s, a, choice) == Finish(s, a)
  {
  }

  lemma ReturnAfterSync(level: Level, s: State, a: nat, t: State)
    requires Inv(level, s) && a in s.actors && s.lock == Some(a)
    requires t == Finish(s.(disk := s.disk.DirsyncIf(level)), a)
    requires DiskInv(level, t.disk, s.log, s.acked.Keys, s.crashed)
    ensures Inv(level, t)
  {
    DirsyncSettles(s.disk);
    assert PinsHold(t) by {
      assert forall pin: nat :: PinnerAlive(t, pin) ==> PinnerAlive(s, pin);
    }
    forall b | b in t.actors ensures ActorInv(level, t, b) {
      assert ActorInv(level, s, b);
      UnlockedActorIgnoresDisk(level, s, t, b);
    }
  }

  /** A call without the lock relies on nothing in the directory. */
  lemma UnlockedActorIgnoresDisk(level: Level, s: State, t: State, b: nat)
    requires b in s.actors && ActorInv(level, s, b) && !HoldsLock(s.actors[b].phase)
    requires t == s.(disk := t.disk, actors := t.actors, lock := t.lock)
    requires b in t.actors && t.actors[b] == s.actors[b]
    ensures ActorInv(level, t, b)
  {
  }

  // -- Opening ---------------------------------------------------------------------------------

  lemma OpenKeeps(level: Level, s: State, a: nat)
    requires Inv(level, s) && a in s.actors && OpenEnabled(s, s.actors[a].phase)
    ensures Inv(level, DoOpen(s, a))
  {
    var t := DoOpen(s, a);
    assert ActorInv(level, s, a);
    OpenBooks(level, s, a);
    forall b | b in t.actors ensures ActorInv(level, t, b) {
      if b == a {
        OpenSelf(level, s, a);
      } else {
        assert ActorInv(level, s, b);
        OpenDisturbsNobody(level, s, a, b);
      }
    }
  }

  /** A pin made at HEAD starts on a generation whose file is there. */
  lemma OpenBooks(level: Level, s: State, a: nat)
    requires a in s.actors && ActorInv(level, s, a) && OpenEnabled(s, s.actors[a].phase)
    requires Bookkeeping(s) && PinsHold(s)
    requires Length(s.disk.head.now) == |s.log| && (|s.log| > 0 ==> s.disk.Has(|s.log| - 1))
    ensures Framed(s, DoOpen(s, a).(nextPin := s.nextPin), a) && DoOpen(s, a).disk == s.disk
    ensures Bookkeeping(DoOpen(s, a)) && PinsHold(DoOpen(s, a))
  {
    OpenFrame(s, a);
    var t := DoOpen(s, a);
    assert PinsHold(t) by {
      forall pin: nat | PinnerAlive(t, pin) && t.pins[pin].atHead
        ensures t.pins[pin].gen < |t.log| && t.disk.Has(t.pins[pin].gen)
      {
        if pin in s.pins {
          assert PinnerAlive(s, pin);
        }
      }
    }
  }

  /** An opener's step touches its own pin and its own call, nothing else. */
  lemma OpenFrame(s: State, a: nat)
    requires a in s.actors && OpenEnabled(s, s.actors[a].phase)
    requires forall pin :: pin in s.pins ==> pin < s.nextPin
    ensures var t := DoOpen(s, a);
      && t.nextPin >= s.nextPin
      && (forall pin: nat :: pin in t.pins && pin in s.pins ==> t.pins[pin] == s.pins[pin])
      && (forall pin: nat :: pin in t.pins && pin !in s.pins ==>
            && pin == s.nextPin < t.nextPin
            && t.pins[pin].pid == s.actors[a].pid
            && (t.pins[pin].atHead ==> HeadOf(s.disk.head.now) == Some(t.pins[pin].gen)))
    ensures var t := DoOpen(s, a);
      && Framed(s, t.(nextPin := s.nextPin), a) && t.disk == s.disk
      && (t.lock == s.lock || (s.lock == Some(a) && t.lock == None))
      && (a in t.actors ==>
            t.actors[a].pid == s.actors[a].pid && !HoldsLock(t.actors[a].phase) && !HoldsLock(s.actors[a].phase))
  {
    OpenFramePins(s, a);
    OpenFrameRest(s, a);
  }

  lemma OpenFramePins(s: State, a: nat)
    requires a in s.actors && OpenEnabled(s, s.actors[a].phase)
    requires forall pin :: pin in s.pins ==> pin < s.nextPin
    ensures var t := DoOpen(s, a);
      && t.nextPin >= s.nextPin
      && (forall pin: nat :: pin in t.pins && pin in s.pins ==> t.pins[pin] == s.pins[pin])
      && (forall pin: nat :: pin in t.pins && pin !in s.pins ==>
            && pin == s.nextPin < t.nextPin
            && t.pins[pin].pid == s.actors[a].pid
            && (t.pins[pin].atHead ==> HeadOf(s.disk.head.now) == Some(t.pins[pin].gen)))
  {
  }

  lemma OpenFrameRest(s: State, a: nat)
    requires a in s.actors && OpenEnabled(s, s.actors[a].phase)
    ensures var t := DoOpen(s, a);
      && Framed(s, t.(nextPin := s.nextPin), a) && t.disk == s.disk
      && (t.lock == s.lock || (s.lock == Some(a) && t.lock == None))
      && (a in t.actors ==>
            t.actors[a].pid == s.actors[a].pid && !HoldsLock(t.actors[a].phase) && !HoldsLock(s.actors[a].phase))
  {
    var phase := s.actors[a].phase;
    if phase.Pinned? || phase.Holding? { OpenFrameEnding(s, a); } else { OpenFrameStarting(s, a); }
  }

  lemma OpenFrameStarting(s: State, a: nat)
    requires a in s.actors && OpenEnabled(s, s.actors[a].phase)
    requires !s.actors[a].phase.Pinned? && !s.actors[a].phase.Holding?
    ensures var t := DoOpen(s, a);
      && Framed(s, t.(nextPin := s.nextPin), a) && t.disk == s.disk
      && (t.lock == s.lock || (s.lock == Some(a) && t.lock == None))
      && (a in t.actors ==>
            t.actors[a].pid == s.actors[a].pid && !HoldsLock(t.actors[a].phase) && !HoldsLock(s.actors[a].phase))
  {
  }

  lemma OpenFrameEnding(s: State, a: nat)
    requires a in s.actors && OpenEnabled(s, s.actors[a].phase)
    requires s.actors[a].phase.Pinned? || s.actors[a].phase.Holding?
    ensures var t := DoOpen(s, a);
      && Framed(s, t.(nextPin := s.nextPin), a) && t.disk == s.disk
      && (t.lock == s.lock || (s.lock == Some(a) && t.lock == None))
      && (a in t.actors ==>
            t.actors[a].pid == s.actors[a].pid && !HoldsLock(t.actors[a].phase) && !HoldsLock(s.actors[a].phase))
  {
  }

  lemma OpenUndisturbs(s: State, a: nat, b: nat)
    requires a in s.actors && OpenEnabled(s, s.actors[a].phase)
    requires b in s.actors && b != a && s.actors[b].pid in s.alive
    requires s.actors[a].phase.Pinned? ==> OwnPin(s, a, s.actors[a].pid, s.actors[a].phase.gen, s.actors[a].phase.pin)
    requires s.actors[a].phase.Holding? ==> OwnPin(s, a, s.actors[a].pid, s.actors[a].phase.gen, s.actors[a].phase.pin)
    requires Length(s.disk.head.now) == |s.log|
    requires forall pin :: pin in s.pins ==> pin < s.nextPin
    ensures Undisturbed(s, DoOpen(s, a), b)
  {
  }

  lemma OpenDisturbsNobody(level: Level, s: State, a: nat, b: nat)
    requires a in s.actors && ActorInv(level, s, a) && OpenEnabled(s, s.actors[a].phase)
    requires b in s.actors && b != a && ActorInv(level, s, b)
    requires Length(s.disk.head.now) == |s.log|
    requires forall pin :: pin in s.pins ==> pin < s.nextPin
    ensures b in DoOpen(s, a).actors && ActorInv(level, DoOpen(s, a), b)
  {
    OpenUndisturbs(s, a, b);
    UnlockedKeepsOther(level, s, DoOpen(s, a), b);
  }

  /** Only committed content is loaded from a generation at or below HEAD. */
  lemma OpenSelf(level: Level, s: State, a: nat)
    requires a in s.actors && ActorInv(level, s, a) && OpenEnabled(s, s.actors[a].phase)
    requires Length(s.disk.head.now) == |s.log|
    requires forall g: nat :: s.disk.Has(g) ==> s.disk.GenSlot(g).now.val.generation == g
    requires forall g: nat :: g < |s.log| && s.disk.Has(g) ==> s.disk.GenSlot(g).now.val == s.log[g].snap
    ensures a in DoOpen(s, a).actors ==> ActorInv(level, DoOpen(s, a), a)
  {
    var t := DoOpen(s, a);
    match s.actors[a].phase
    case Opening(Some(g)) => assert t.actors[a].phase == Bound(g, false);
    case Opening(None) => assert t.actors[a].phase == Bound(s.disk.head.now.val, true);
    case Bound(g, viaHead) => assert t.actors[a].phase == Pinned(g, s.nextPin, viaHead);
    case Pinned(g, pin, viaHead) =>
      if s.disk.Has(g) {
        assert t == Move(s, a, Holding(g, pin, s.disk.GenSlot(g).now.val, g < Length(s.disk.head.now)));
      } else if viaHead {
        assert t.actors[a].phase == Opening(None);
      }
    case Holding(_, _, _, _) =>
  }

  // -- Any step --------------------------------------------------------------------------------

  lemma StepKeeps(level: Level, s: State, step: Step)
    requires Inv(level, s) && Enabled(level, s, step)
    ensures Inv(level, Do(level, s, step))
  {
    if step.PubStep? || step.GcStep? || step.OpenStep? {
      CallStepKeeps(level, s, step);
    } else if step.StartPublish? || step.StartCollect? || step.StartOpen? {
      StartStepKeeps(level, s, step);
    } else {
      OtherStepKeeps(level, s, step);
    }
  }

  lemma CallStepKeeps(level: Level, s: State, step: Step)
    requires Inv(level, s) && Enabled(level, s, step) && (step.PubStep? || step.GcStep? || step.OpenStep?)
    ensures Inv(level, Do(level, s, step))
  {
    match step
    case PubStep(a) => PubKeeps(level, s, a);
    case GcStep(a, choice) => GcKeeps(level, s, a, choice);
    case OpenStep(a) => OpenKeeps(level, s, a);
  }

  lemma StartStepKeeps(level: Level, s: State, step: Step)
    requires Inv(level, s) && Enabled(level, s, step) && (step.StartPublish? || step.StartCollect? || step.StartOpen?)
    ensures Inv(level, Do(level, s, step))
  {
    match step
    case StartPublish(pid, base, snap) =>
      StartKeeps(level, s, pid, Publishing(base, snap, Staged),
                 s.tmp.(gens := s.tmp.gens[s.nextActor := GenTmp(pid, Present(snap, false))]));
    case StartCollect(pid, schedule, compact) =>
      StartKeeps(level, s, pid, Collecting(Gc(schedule, compact, 0, map[], {}, []), Waiting), s.tmp);
    case StartOpen(pid, target) => StartKeeps(level, s, pid, Opening(target), s.tmp);
  }

  lemma OtherStepKeeps(level: Level, s: State, step: Step)
    requires Inv(level, s) && Enabled(level, s, step)
    requires step.Spawn? || step.Kill? || step.OsCrash? || step.Abort? || step.Repair?
    ensures Inv(level, Do(level, s, step))
  {
    match step
    case Spawn(pid) => SpawnKeeps(level, s, pid);
    case Kill(pid) => KillKeeps(level, s, pid);
    case OsCrash(after, left) => OsCrashKeeps(level, s, after, left);
    case Abort(a) => FinishKeeps(level, s, a);
    case Repair(file) => RepairKeeps(level, s, file);
  }

  lemma SpawnKeeps(level: Level, s: State, pid: nat)
    requires Inv(level, s) && pid !in s.alive && pid !in s.dead
    ensures Inv(level, s.(alive := s.alive + {pid}))
  {
    var t := s.(alive := s.alive + {pid});
    assert forall pin: nat :: PinnerAlive(t, pin) ==> PinnerAlive(s, pin);
    forall b | b in t.actors ensures ActorInv(level, t, b) {
      assert ActorInv(level, s, b);
      UnlockedKeepsOther(level, s, t, b);
    }
  }

  lemma {:induction false} RunInv(level: Level, run: seq<State>, i: nat)
    requires IsRun(level, run) && i < |run|
    ensures Inv(level, run[i])
  {
    if i == 0 {
      InitInv(level);
    } else {
      RunInv(level, run, i - 1);
      assert StepAt(level, run, i - 1);
      var step :| Enabled(level, run[i - 1], step) && run[i] == Do(level, run[i - 1], step);
      StepKeeps(level, run[i - 1], step);
    }
  }
}
