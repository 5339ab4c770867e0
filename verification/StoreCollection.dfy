/** The deletion steps of a collector, among all other processes, are the file operations of `Compaction`. */
module StoreCollection {
  import opened Collections
  import opened StoreDisk
  import opened Retention
  import opened StoreMachine
  import opened StoreInvariant
  import opened StoreSteps
  import opened StoreTheorems
  import opened StorePins
  import opened Compaction

  type Sizer = Snapshot -> nat

  /** The generation files with their sizes, and the journal. */
  function FilesOn(size: Sizer, d: Disk): Files {
    Files(map g | g in d.OnDisk() :: size(d.GenSlot(g).now.val), Reclaimed(d.journal.now))
  }

  predicate Deletes(p: Phase) {
    p.Collecting? && !Scanning(p.stage)
  }

  /** 1 between naming the next victim in the journal and unlinking it. */
  function RecordedAhead(stage: GcStage): nat {
    if stage.JournalRenamed? || stage.JournalSynced? then 1 else 0
  }

  /** File operations done so far by a collector that set out to delete `total` generations. */
  function OperationsDone(p: Phase, total: nat): nat
    requires Deletes(p) && |p.gc.victims| <= total
  {
    2 * (total - |p.gc.victims|) + RecordedAhead(p.stage)
  }

  ghost predicate Underway(size: Sizer, d: Disk, p: Phase, from: Files, victims: seq<nat>) {
    Reached(FilesOn(size, d), p, from, victims)
  }

  /** What is left to delete is the rest of `victims`, and the files are `from` with the others deleted. */
  ghost predicate Reached(now: Files, p: Phase, from: Files, victims: seq<nat>) {
    && Deletes(p) && |p.gc.victims| <= |victims|
    && var done := |victims| - |p.gc.victims|;
       && p.gc.victims == victims[done..]
       && (RecordedAhead(p.stage) == 1 ==> p.gc.victims != [])
       && (Finishing(p.stage) ==> p.gc.victims == [])
       && now == AfterOperations(from, victims, OperationsDone(p, |victims|))
  }

  // -- One file operation ------------------------------------------------------------------------------

  lemma FilesAfterDirsync(size: Sizer, level: Level, d: Disk)
    ensures FilesOn(size, d.DirsyncIf(level)) == FilesOn(size, d)
  {
    DirsyncSettles(d);
    assert d.Dirsync().OnDisk() == d.OnDisk();
  }

  lemma FilesAfterRecord(size: Sizer, d: Disk, file: Entry<set<nat>>)
    requires file.Present?
    ensures FilesOn(size, d.RenameJournal(file)) == FilesOn(size, d).(journal := file.val)
  {
    assert d.RenameJournal(file).OnDisk() == d.OnDisk();
    assert forall g: nat :: d.RenameJournal(file).GenSlot(g) == d.GenSlot(g);
  }

  lemma FilesAfterUnlink(size: Sizer, d: Disk, v: nat)
    ensures FilesOn(size, d.UnlinkGen(v)) == FilesOn(size, d).(gens := FilesOn(size, d).gens - {v})
  {
    var t := d.UnlinkGen(v);
    assert t.GenSlot(v).now == Absent && forall g: nat :: g != v ==> t.GenSlot(g) == d.GenSlot(g);
    assert t.OnDisk() == d.OnDisk() - {v};
  }

  lemma OperationsGiveProgress(f: Files, victims: seq<nat>, done: nat, ahead: nat)
    requires ahead <= 1 && done + ahead <= |victims|
    ensures AfterOperations(f, victims, 2 * done + ahead) == Progress(f, victims, done, done + ahead)
  {
    assert (2 * done + ahead) / 2 == done && (2 * done + ahead + 1) / 2 == done + ahead;
  }

  /** An odd operation records the next victim ... */
  lemma Recorded(now: Files, f: Files, victims: seq<nat>, done: nat, v: nat)
    requires done < |victims| && v == victims[done] && now == AfterOperations(f, victims, 2 * done)
    ensures AfterOperations(f, victims, 2 * done + 1) == now.(journal := now.journal + {v})
  {
    OperationsGiveProgress(f, victims, done, 0);
    OperationsGiveProgress(f, victims, done, 1);
    assert victims[..done + 1] == victims[..done] + [v];
  }

  /** ... and the even one after it unlinks it. */
  lemma Unlinked(now: Files, f: Files, victims: seq<nat>, done: nat, v: nat)
    requires done < |victims| && v == victims[done] && now == AfterOperations(f, victims, 2 * done + 1)
    ensures AfterOperations(f, victims, 2 * (done + 1)) == now.(gens := now.gens - {v})
  {
    OperationsGiveProgress(f, victims, done, 1);
    OperationsGiveProgress(f, victims, done + 1, 0);
    ProgressUnlinks(f, victims, done);
  }

  lemma ProgressUnlinks(f: Files, victims: seq<nat>, done: nat)
    requires done < |victims|
    ensures var p := Progress(f, victims, done, done + 1);
      Progress(f, victims, done + 1, done + 1) == p.(gens := p.gens - {victims[done]})
  {
    assert victims[..done + 1] == victims[..done] + [victims[done]];
  }

  // -- One step ----------------------------------------------------------------------------------------

  lemma OwnFiles(size: Sizer, level: Level, s: State, a: nat, choice: set<nat>)
    requires a in s.actors && s.actors[a].phase.Collecting? && GcEnabled(s, s.actors[a].phase, choice)
    requires s.actors[a].phase.stage == JournalFileSynced ==>
      && s.actors[a].phase.gc.victims != []
      && s.tmp.journal.val == Reclaimed(s.disk.journal.now) + {s.actors[a].phase.gc.victims[0]}
    ensures var p, f := s.actors[a].phase, FilesOn(size, s.disk);
      FilesOn(size, DoGc(level, s, a, choice).disk) ==
        if p.stage == JournalFileSynced then f.(journal := f.journal + {p.gc.victims[0]})
        else if p.stage == JournalSynced then f.(gens := f.gens - {p.gc.victims[0]})
        else f
  {
    var p := s.actors[a].phase;
    GcDiskStep(level, s, a, choice);
    if p.stage == JournalFileSynced {
      FilesAfterRecord(size, s.disk, s.tmp.journal);
    } else if p.stage == JournalSynced {
      FilesAfterUnlink(size, s.disk, p.gc.victims[0]);
    } else {
      FilesAfterDirsync(size, level, s.disk);
    }
  }

  lemma SweepPhase(level: Level, s: State, a: nat, gc: Gc, stage: GcStage, choice: set<nat>)
    requires a in s.actors && Finishing(stage)
    ensures var t := GcSweep(level, s, a, gc, stage, choice);
      a in t.actors ==> GoesOn(Collecting(gc, stage), t.actors[a].phase)
  {
  }

  lemma DeletePhase(level: Level, s: State, a: nat, gc: Gc, stage: GcStage)
    requires a in s.actors && !Scanning(stage) && !Finishing(stage) && (stage == JournalSynced ==> gc.victims != [])
    ensures var t := GcDelete(level, s, a, gc, stage);
      a in t.actors ==> GoesOn(Collecting(gc, stage), t.actors[a].phase)
  {
    if stage == Deleting {
      StartPhase(level, s, a, gc);
    } else {
      assert a in GcDelete(level, s, a, gc, stage).actors;
    }
  }

  lemma StartPhase(level: Level, s: State, a: nat, gc: Gc)
    requires a in s.actors
    ensures var t := GcDelete(level, s, a, gc, Deleting);
      a in t.actors ==> GoesOn(Collecting(gc, Deleting), t.actors[a].phase)
  {
  }

  /** What a deleting collector's own step does to its phase. */
  predicate GoesOn(p: Phase, q: Phase)
    requires Deletes(p)
  {
    && Deletes(q)
    && (Finishing(q.stage) ==> Finishing(p.stage) || p.gc.victims == [])
    && (p.stage == JournalSynced ==> p.gc.victims != [])
    && q.gc == (if p.stage == JournalSynced then p.gc.(victims := p.gc.victims[1..]) else p.gc)
    && RecordedAhead(q.stage) == (if p.stage == JournalFileSynced then 1 else if p.stage == JournalSynced then 0
                                  else RecordedAhead(p.stage))
  }

  lemma OwnPhase(level: Level, s: State, a: nat, choice: set<nat>)
    requires a in s.actors && Deletes(s.actors[a].phase) && GcEnabled(s, s.actors[a].phase, choice)
    requires a in DoGc(level, s, a, choice).actors
    ensures GoesOn(s.actors[a].phase, DoGc(level, s, a, choice).actors[a].phase)
  {
    var p := s.actors[a].phase;
    if Finishing(p.stage) {
      SweepPhase(level, s, a, p.gc, p.stage, choice);
    } else {
      DeletePhase(level, s, a, p.gc, p.stage);
    }
  }

  /** The collector's own step: record the next victim, unlink it, or leave the files as they are. */
  lemma OwnStep(size: Sizer, level: Level, s: State, a: nat, choice: set<nat>, from: Files, victims: seq<nat>)
    requires a in s.actors && ActorInv(level, s, a) && Underway(size, s.disk, s.actors[a].phase, from, victims)
    requires GcEnabled(s, s.actors[a].phase, choice) && a in DoGc(level, s, a, choice).actors
    ensures var t := DoGc(level, s, a, choice); Underway(size, t.disk, t.actors[a].phase, from, victims)
  {
    var p := s.actors[a].phase;
    OwnFiles(size, level, s, a, choice);
    OwnPhase(level, s, a, choice);
    var t := DoGc(level, s, a, choice);
    NextProgress(FilesOn(size, s.disk), FilesOn(size, t.disk), p, t.actors[a].phase, from, victims);
  }

  lemma NextProgress(now: Files, next: Files, p: Phase, q: Phase, from: Files, victims: seq<nat>)
    requires Reached(now, p, from, victims) && GoesOn(p, q)
    requires p.stage == JournalFileSynced ==> p.gc.victims != []
    requires next ==
      if p.stage == JournalFileSynced then now.(journal := now.journal + {p.gc.victims[0]})
      else if p.stage == JournalSynced then now.(gens := now.gens - {p.gc.victims[0]})
      else now
    ensures Reached(next, q, from, victims)
  {
    NextRest(p, q, victims);
    var done := |victims| - |p.gc.victims|;
    if p.stage == JournalFileSynced {
      Recorded(now, from, victims, done, p.gc.victims[0]);
      ReachedBy(next, q, from, victims, 2 * done + 1);
    } else if p.stage == JournalSynced {
      Unlinked(now, from, victims, done, p.gc.victims[0]);
      ReachedBy(next, q, from, victims, 2 * (done + 1));
    } else {
      ReachedBy(next, q, from, victims, OperationsDone(p, |victims|));
    }
  }

  lemma ReachedBy(now: Files, p: Phase, from: Files, victims: seq<nat>, ops: nat)
    requires Deletes(p) && |p.gc.victims| <= |victims| && p.gc.victims == victims[|victims| - |p.gc.victims|..]
    requires (RecordedAhead(p.stage) == 1 ==> p.gc.victims != []) && (Finishing(p.stage) ==> p.gc.victims == [])
    requires ops == OperationsDone(p, |victims|) && now == AfterOperations(from, victims, ops)
    ensures Reached(now, p, from, victims)
  {
  }

  /** The rest of the victims, and the count of operations, after one step. */
  lemma NextRest(p: Phase, q: Phase, victims: seq<nat>)
    requires Deletes(p) && GoesOn(p, q) && |p.gc.victims| <= |victims|
    requires p.gc.victims == victims[|victims| - |p.gc.victims|..]
    ensures |q.gc.victims| <= |victims| && q.gc.victims == victims[|victims| - |q.gc.victims|..]
    ensures p.gc.victims != [] ==> p.gc.victims[0] == victims[|victims| - |p.gc.victims|]
    ensures OperationsDone(q, |victims|) ==
      OperationsDone(p, |victims|) + (if p.stage == JournalFileSynced || p.stage == JournalSynced then 1 else 0)
    ensures p.stage == JournalFileSynced ==> OperationsDone(p, |victims|) == 2 * (|victims| - |p.gc.victims|)
    ensures p.stage == JournalSynced ==> OperationsDone(p, |victims|) == 2 * (|victims| - |p.gc.victims|) + 1
  {
    if p.stage == JournalSynced {
      var done := |victims| - |p.gc.victims|;
      assert victims[done..][1..] == victims[done + 1..];
    }
  }

  lemma DeletesHoldsLock(p: Phase)
    requires Deletes(p)
    ensures HoldsLock(p) && p.stage != Waiting
  {
  }

  /** Whoever steps, the collector's progress stands or advances. */
  lemma StepGoesOn(size: Sizer, level: Level, s: State, step: Step, a: nat, from: Files, victims: seq<nat>)
    requires Inv(level, s) && Enabled(level, s, step) && a in s.actors && a in Do(level, s, step).actors
    requires Underway(size, s.disk, s.actors[a].phase, from, victims)
    ensures var t := Do(level, s, step); Underway(size, t.disk, t.actors[a].phase, from, victims)
  {
    DeletesHoldsLock(s.actors[a].phase);
    assert ActorInv(level, s, a);
    if step.GcStep? && step.actor == a {
      OwnStep(size, level, s, a, step.choice, from, victims);
    } else {
      assert !step.OsCrash?;
      OthersKeepActor(level, s, step, a);
      OthersLeaveDisk(level, s, step, a);
    }
  }

  lemma OthersKeepActor(level: Level, s: State, step: Step, a: nat)
    requires Inv(level, s) && Enabled(level, s, step) && a in s.actors && a in Do(level, s, step).actors
    requires s.actors[a].phase.Collecting? && !(step.GcStep? && step.actor == a)
    ensures Do(level, s, step).actors[a] == s.actors[a]
  {
    match step
    case PubStep(b) => PubKeepsOther(level, s, b, a);
    case GcStep(b, choice) => GcFrame(level, s, b, choice);
    case OpenStep(b) => OpenFrame(s, b);
    case StartPublish(_, _, _) => ActorNumbered(level, s, a);
    case StartCollect(_, _, _) => ActorNumbered(level, s, a);
    case StartOpen(_, _) => ActorNumbered(level, s, a);
    case _ =>
  }

  lemma PubKeepsOther(level: Level, s: State, b: nat, a: nat)
    requires b in s.actors && s.actors[b].phase.Publishing? && PubEnabled(level, s, b, s.actors[b].phase)
    requires a != b && a in DoPub(level, s, b).actors
    ensures a in s.actors && DoPub(level, s, b).actors[a] == s.actors[a]
  {
    PubFrame(level, s, b);
  }

  // -- A whole collection --------------------------------------------------------------------------------

  /** The call `a` neither returns nor dies from state `i` to state `j`. */
  ghost predicate Runs(run: seq<State>, i: nat, j: nat, a: nat) {
    forall k: nat :: i <= k <= j && k < |run| ==> a in run[k].actors
  }

  lemma {:induction false} StretchGoesOn(size: Sizer, level: Level, run: seq<State>, i: nat, j: nat, a: nat,
                                         from: Files, victims: seq<nat>)
    requires IsRun(level, run) && i <= j < |run| && Runs(run, i, j, a)
    requires a in run[i].actors && Underway(size, run[i].disk, run[i].actors[a].phase, from, victims)
    ensures a in run[j].actors && Underway(size, run[j].disk, run[j].actors[a].phase, from, victims)
    decreases j
  {
    if i < j {
      StretchGoesOn(size, level, run, i, j - 1, a, from, victims);
      assert a in run[j].actors;
      RunGoesOn(size, level, run, j - 1, a, from, victims);
    }
  }

  lemma RunGoesOn(size: Sizer, level: Level, run: seq<State>, i: nat, a: nat, from: Files, victims: seq<nat>)
    requires IsRun(level, run) && i + 1 < |run| && a in run[i].actors && a in run[i + 1].actors
    requires Underway(size, run[i].disk, run[i].actors[a].phase, from, victims)
    ensures Underway(size, run[i + 1].disk, run[i + 1].actors[a].phase, from, victims)
  {
    var step := NextStep(level, run, i);
    StepGoesOn(size, level, run[i], step, a, from, victims);
  }

  /** The files of a collector that has the victims of its schedule to delete, and deletes on to state `j`. */
  lemma ChosenIsKilledRun(size: Sizer, level: Level, run: seq<State>, i: nat, j: nat, a: nat)
    requires IsRun(level, run) && i <= j < |run| && Runs(run, i, j, a)
    requires a in run[i].actors && Chosen(run[i], a)
    ensures DoneAsKilledRun(size, run[i], run[j], a)
  {
    var gc, from := run[i].actors[a].phase.gc, FilesOn(size, run[i].disk);
    StartsUnderway(size, run[i], a);
    StretchGoesOn(size, level, run, i, j, a, from, gc.victims);
    assert from.gens.Keys == run[i].disk.OnDisk();
    OperationsAreARun(FilesOn(size, run[j].disk), run[j].actors[a].phase, gc.schedule, from, gc.live, gc.head);
  }

  /** From `s`, where the collector has chosen its victims, to `t`: the files are those of the killed run of its
      schedule after as many operations; once it has nothing left to delete, those of the full run. */
  ghost predicate DoneAsKilledRun(size: Sizer, s: State, t: State, a: nat) {
    && a in s.actors && s.actors[a].phase.Collecting? && a in t.actors && Deletes(t.actors[a].phase)
    && var p, gc := t.actors[a].phase, s.actors[a].phase.gc;
       && ValidSchedule(gc.schedule) && |p.gc.victims| <= |gc.victims|
       && FilesOn(size, t.disk)
          == KilledRun(gc.schedule, FilesOn(size, s.disk), gc.live, gc.head, OperationsDone(p, |gc.victims|))
       && (p.gc.victims == [] ==>
             FilesOn(size, t.disk) == FullRun(gc.schedule, FilesOn(size, s.disk), gc.live, gc.head))
  }

  /** From the probe of its pins in step `i` to its return or death, whatever publishers, readers and other collectors
      do meanwhile, a collector has the files of the killed run of its schedule. */
  lemma CollectorIsKilledRun(size: Sizer, level: Level, run: seq<State>, i: nat, j: nat, a: nat)
    requires IsRun(level, run) && i + 1 <= j < |run| && Runs(run, i, j, a)
    requires a in run[i].actors && run[i].actors[a].phase.Collecting? && run[i].actors[a].phase.stage == Listed
    requires a in run[i + 1].actors && run[i + 1].actors[a] != run[i].actors[a]
    ensures DoneAsKilledRun(size, run[i + 1], run[j], a)
  {
    StepChooses(level, run, i, a);
    ChosenIsKilledRun(size, level, run, i + 1, j, a);
  }

  lemma StepChooses(level: Level, run: seq<State>, i: nat, a: nat)
    requires IsRun(level, run) && i + 1 < |run| && a in run[i].actors && a in run[i + 1].actors
    requires run[i].actors[a].phase.Collecting? && run[i].actors[a].phase.stage == Listed
    requires run[i + 1].actors[a] != run[i].actors[a]
    ensures Chosen(run[i + 1], a)
  {
    var step := NextStep(level, run, i);
    OnlyItMoves(level, run[i], step, a);
    ProbeChooses(level, run[i], a, step.choice);
  }

  /** A call in progress changes by its own steps only. */
  lemma OnlyItMoves(level: Level, s: State, step: Step, a: nat)
    requires Inv(level, s) && Enabled(level, s, step) && a in s.actors && a in Do(level, s, step).actors
    requires s.actors[a].phase.Collecting? && Do(level, s, step).actors[a] != s.actors[a]
    ensures step.GcStep? && step.actor == a
  {
    if !(step.GcStep? && step.actor == a) {
      OthersKeepActor(level, s, step, a);
    }
  }

  lemma OperationsAreARun(now: Files, p: Phase, schedule: Schedule, from: Files, live: set<nat>, head: nat)
    requires ValidSchedule(schedule) && Deletes(p) && |p.gc.victims| <= |Plan(schedule, from, live, head)|
    requires RecordedAhead(p.stage) == 1 ==> p.gc.victims != []
    requires var victims := Plan(schedule, from, live, head);
      now == AfterOperations(from, victims, OperationsDone(p, |victims|))
    ensures var victims := Plan(schedule, from, live, head);
      now == KilledRun(schedule, from, live, head, OperationsDone(p, |victims|))
    ensures p.gc.victims == [] ==> now == FullRun(schedule, from, live, head)
  {
    if p.gc.victims == [] {
      AllOperations(from, Plan(schedule, from, live, head));
    }
  }

  lemma AllOperations(f: Files, victims: seq<nat>)
    ensures AfterOperations(f, victims, 2 * |victims|)
         == Files(f.gens - Members(victims), f.journal + Members(victims))
  {
    OperationsGiveProgress(f, victims, |victims|, 0);
    assert victims[..|victims|] == victims;
  }

  /** A collector that has just chosen its victims. */
  ghost predicate Chosen(s: State, a: nat)
    requires a in s.actors
  {
    var p := s.actors[a].phase;
    && p.Collecting? && p.stage == Deleting && ValidSchedule(p.gc.schedule)
    && p.gc.victims == Victims(p.gc.schedule, s.disk.OnDisk(), p.gc.live, p.gc.head)
  }

  lemma StartsUnderway(size: Sizer, s: State, a: nat)
    requires a in s.actors && Chosen(s, a)
    ensures Underway(size, s.disk, s.actors[a].phase, FilesOn(size, s.disk), s.actors[a].phase.gc.victims)
  {
    var gc, f := s.actors[a].phase.gc, FilesOn(size, s.disk);
    OperationsGiveProgress(f, gc.victims, 0, 0);
    assert f.gens - Members(gc.victims[..0]) == f.gens;
    assert gc.victims[0..] == gc.victims;
  }

  /** Probing the pins makes that choice. */
  lemma ProbeChooses(level: Level, s: State, a: nat, choice: set<nat>)
    requires a in s.actors && s.actors[a].phase.Collecting? && s.actors[a].phase.stage == Listed
    requires GcEnabled(s, s.actors[a].phase, choice)
    ensures a in DoGc(level, s, a, choice).actors && Chosen(DoGc(level, s, a, choice), a)
  {
  }
}
