/** A generation that a finished collection has removed never comes back, whatever is published or crashes later. */
module StoreRemoval {
  import opened StoreDisk
  import opened StoreMachine
  import opened StoreDiskSafety
  import opened StoreInvariant
  import opened StoreSteps
  import opened StoreTheorems
  import opened StorePins
  import opened StoreCollection
  import opened StoreReclaim

  /** Generation `g` is below HEAD and absent, and no crash can bring it back. */
  ghost predicate Gone(level: Level, s: State, g: nat) {
    !s.disk.Has(g) && g + 1 < |s.log| && (level.AtLeast(L2) ==> s.disk.GenSlot(g).Outcomes() == {Absent})
  }

  // -- Gone for good -----------------------------------------------------------------------------------

  lemma GoneStays(level: Level, s: State, step: Step, g: nat)
    requires Inv(level, s) && Enabled(level, s, step) && Gone(level, s, g)
    ensures Gone(level, Do(level, s, step), g)
  {
    match step
    case PubStep(a) =>
      assert ActorInv(level, s, a);
      PubLeavesGone(level, s, a, g);
    case GcStep(a, choice) =>
      GcFrame(level, s, a, choice);
      GcLeavesGone(level, s, a, choice, g);
    case OpenStep(a) => OpenFrame(s, a);
    case OsCrash(after, left) => CrashLeavesGone(level, s, after, left, g);
    case _ =>
  }

  /** A publication names the generation after HEAD, which is not `g`. */
  lemma PubLeavesGone(level: Level, s: State, a: nat, g: nat)
    requires a in s.actors && ActorInv(level, s, a) && s.actors[a].phase.Publishing? && Gone(level, s, g)
    requires PubEnabled(level, s, a, s.actors[a].phase)
    ensures Gone(level, DoPub(level, s, a), g)
  {
    PubHistory(level, s, a);
    PubSlot(level, s, a, g);
    DirsyncSettles(s.disk);
  }

  lemma PubSlot(level: Level, s: State, a: nat, g: nat)
    requires a in s.actors && s.actors[a].phase.Publishing? && PubEnabled(level, s, a, s.actors[a].phase)
    requires s.actors[a].phase.pub == BaseChecked ==> g != s.actors[a].phase.snap.generation
    ensures DoPub(level, s, a).disk.GenSlot(g) in {s.disk.GenSlot(g), s.disk.DirsyncIf(level).GenSlot(g)}
  {
  }

  lemma GcLeavesGone(level: Level, s: State, a: nat, choice: set<nat>, g: nat)
    requires a in s.actors && s.actors[a].phase.Collecting? && GcEnabled(s, s.actors[a].phase, choice)
    requires Gone(level, s, g)
    ensures DoGc(level, s, a, choice).log == s.log ==> Gone(level, DoGc(level, s, a, choice), g)
  {
    GcDiskStep(level, s, a, choice);
    DirsyncSettles(s.disk);
  }

  lemma CrashLeavesGone(level: Level, s: State, after: Disk, left: Staging, g: nat)
    requires level.AtLeast(L2) && DiskInv(level, s.disk, s.log, s.acked.Keys, s.crashed) && Gone(level, s, g)
    requires s.disk.CrashOutcome(after)
    ensures Gone(level, DoOsCrash(s, after, left), g)
  {
    assert Absent in s.disk.GenSlot(g).Outcomes();
    CrashKeepsHeadAbove(s.disk, s.log, s.acked.Keys, after, g);
    if g in s.disk.gens {
      assert s.disk.gens[g].Survives(after.gens[g]);
    }
  }

  lemma CrashKeepsHeadAbove(d: Disk, log: seq<Commit>, acked: set<nat>, after: Disk, g: nat)
    requires HeadDurable(d, log, acked) && d.CrashOutcome(after)
    requires forall e :: e in d.head.Outcomes() ==> g + 1 < Length(e)
    ensures g + 1 < Length(after.head.now) <= |log|
  {
    var e :| e in d.head.Outcomes() && EntrySurvives(e, after.head.now);
  }

  lemma {:induction false} GoneForGood(level: Level, run: seq<State>, i: nat, j: nat, g: nat)
    requires IsRun(level, run) && i <= j < |run| && Gone(level, run[i], g)
    ensures Gone(level, run[j], g)
    decreases j
  {
    if i < j {
      GoneForGood(level, run, i, j - 1, g);
      var step := NextStep(level, run, j - 1);
      GoneStays(level, run[j - 1], step, g);
    }
  }

  // -- A collector makes them gone -------------------------------------------------------------------------

  /** Every generation of `from` that is absent is gone for good, but for the one just unlinked. */
  ghost predicate RemovedForGood(level: Level, from: Disk, s: State, a: nat)
    requires a in s.actors && s.actors[a].phase.Collecting?
  {
    forall g: nat | from.Has(g) && !s.disk.Has(g) ::
      Gone(level, s, g) || (s.actors[a].phase.stage == Unlinked && g + 1 < |s.log|)
  }

  lemma OwnRemovals(level: Level, from: Disk, s: State, a: nat, choice: set<nat>)
    requires Inv(level, s) && a in s.actors && Deletes(s.actors[a].phase) && GcEnabled(s, s.actors[a].phase, choice)
    requires RemovedForGood(level, from, s, a) && a in DoGc(level, s, a, choice).actors
    ensures DoGc(level, s, a, choice).actors[a].phase.Collecting?
    ensures RemovedForGood(level, from, DoGc(level, s, a, choice), a)
  {
    assert ActorInv(level, s, a);
    OwnPhase(level, s, a, choice);
    GcFrame(level, s, a, choice);
    var t := DoGc(level, s, a, choice);
    forall g: nat | from.Has(g) && !t.disk.Has(g)
      ensures Gone(level, t, g) || (t.actors[a].phase.stage == Unlinked && g + 1 < |t.log|)
    {
      if s.disk.Has(g) {
        JustUnlinked(level, s, a, choice, g);
      } else if Gone(level, s, g) {
        GcLeavesGone(level, s, a, choice, g);
      } else {
        UnlinkSynced(level, s, a, choice, g);
      }
    }
  }

  lemma JustUnlinked(level: Level, s: State, a: nat, choice: set<nat>, g: nat)
    requires a in s.actors && s.actors[a].phase.Collecting? && GcEnabled(s, s.actors[a].phase, choice)
    requires GcInv(level, s, s.actors[a].phase.gc, s.actors[a].phase.stage)
    requires s.disk.Has(g) && !DoGc(level, s, a, choice).disk.Has(g)
    ensures a in DoGc(level, s, a, choice).actors
    ensures DoGc(level, s, a, choice).actors[a].phase.Collecting?
    ensures DoGc(level, s, a, choice).actors[a].phase.stage == Unlinked && g + 1 < |s.log|
  {
    GcDiskStep(level, s, a, choice);
    DirsyncSettles(s.disk);
    assert s.actors[a].phase.stage == JournalSynced;
    assert s.actors[a].phase.gc.victims[0] in s.actors[a].phase.gc.victims;
  }

  lemma UnlinkSynced(level: Level, s: State, a: nat, choice: set<nat>, g: nat)
    requires a in s.actors && s.actors[a].phase.Collecting? && GcEnabled(s, s.actors[a].phase, choice)
    requires s.actors[a].phase.stage == Unlinked && !s.disk.Has(g) && g + 1 < |s.log|
    requires DoGc(level, s, a, choice).log == s.log
    ensures Gone(level, DoGc(level, s, a, choice), g)
  {
    GcDiskStep(level, s, a, choice);
    DirsyncSettles(s.disk);
  }

  lemma StepRemoves(level: Level, from: Disk, s: State, step: Step, a: nat)
    requires Inv(level, s) && Enabled(level, s, step) && a in s.actors && a in Do(level, s, step).actors
    requires Deletes(s.actors[a].phase) && RemovedForGood(level, from, s, a)
    ensures Deletes(Do(level, s, step).actors[a].phase) && RemovedForGood(level, from, Do(level, s, step), a)
  {
    StepFromDeleting(level, s, step, a);
    if step.GcStep? && step.actor == a {
      OwnRemovals(level, from, s, a, step.choice);
    } else {
      assert !step.OsCrash?;
      OthersRemoveNothing(level, from, s, step, a);
    }
  }

  lemma OthersRemoveNothing(level: Level, from: Disk, s: State, step: Step, a: nat)
    requires Inv(level, s) && Enabled(level, s, step) && !step.OsCrash?
    requires a in s.actors && a in Do(level, s, step).actors && !(step.GcStep? && step.actor == a)
    requires Deletes(s.actors[a].phase) && RemovedForGood(level, from, s, a)
    ensures Do(level, s, step).actors[a] == s.actors[a] && RemovedForGood(level, from, Do(level, s, step), a)
  {
    DeletesHoldsLock(s.actors[a].phase);
    OthersKeepActor(level, s, step, a);
    OthersLeaveDisk(level, s, step, a);
    StepKeeps(level, s, step);
    assert |Do(level, s, step).log| == |s.log|;
  }

  lemma {:induction false} StretchRemoves(level: Level, run: seq<State>, i: nat, j: nat, a: nat)
    requires IsRun(level, run) && i <= j < |run| && Runs(run, i, j, a)
    requires a in run[i].actors && Deletes(run[i].actors[a].phase)
    ensures a in run[j].actors && Deletes(run[j].actors[a].phase)
    ensures RemovedForGood(level, run[i].disk, run[j], a)
    decreases j
  {
    if i < j {
      StretchRemoves(level, run, i, j - 1, a);
      assert a in run[j].actors;
      var step := NextStep(level, run, j - 1);
      StepRemoves(level, run[i].disk, run[j - 1], step, a);
    }
  }

  /** What a collector found when it listed the pins and had removed when it had nothing left to delete is absent in
      every later state: no publication, no repair and no crash of the machine brings it back. */
  lemma RemovedNeverReturns(level: Level, run: seq<State>, k: nat, j: nat, i: nat, a: nat, g: nat)
    requires IsRun(level, run) && ListsAt(run, k, a) && k < j <= i < |run| && Runs(run, k, j, a)
    requires a in run[j].actors && DoneDeleting(run[j], a) && run[j].actors[a].phase.stage != Unlinked
    requires run[k].disk.Has(g) && !run[j].disk.Has(g)
    ensures !run[i].disk.Has(g)
  {
    var m := ProbeHappened(level, run, k, j, a);
    ListingReads(level, run, k, a);
    ProbeReads(level, run, m, a);
    StretchRemoves(level, run, m + 1, j, a);
    GoneForGood(level, run, j, i, g);
  }
}
