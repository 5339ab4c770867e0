/** What one whole collection removes: exactly what its schedule takes from the generations without a listed pin. */
module StoreReclaim {
  import opened StoreDisk
  import opened Retention
  import opened StoreMachine
  import opened StoreInvariant
  import opened StoreTheorems
  import opened StorePins
  import opened StoreCollection
  import opened StoreHandles
  import opened Compaction

  // -- From the listing to the probe -------------------------------------------------------------------

  /** Step `k` is the listing of the pins by the collector `a`. */
  predicate ListsAt(run: seq<State>, k: nat, a: nat) {
    && k + 1 < |run| && a in run[k].actors && a in run[k + 1].actors
    && run[k].actors[a].phase.Collecting? && run[k].actors[a].phase.stage == Reaped
    && run[k + 1].actors[a].phase.Collecting? && run[k + 1].actors[a].phase.stage == Listed
  }

  /** The collector still has its listing and the disk it found, or is past its probe. */
  ghost predicate ListedOrDeleting(s: State, t: State, a: nat) {
    && a in s.actors && a in t.actors
    && (Deletes(t.actors[a].phase) || (t.actors[a] == s.actors[a] && t.disk == s.disk))
  }

  lemma ListingReads(level: Level, run: seq<State>, k: nat, a: nat)
    requires IsRun(level, run) && ListsAt(run, k, a)
    ensures var gc := run[k].actors[a].phase.gc;
      && run[k + 1].actors[a].phase == Collecting(gc.(listed := ListedPins(run[k])), Listed)
      && run[k + 1].disk == run[k].disk && ValidSchedule(gc.schedule) && |run[k].log| == gc.head + 1
  {
    var step := NextStep(level, run, k);
    assert ActorInv(level, run[k], a);
    OnlyItMoves(level, run[k], step, a);
    ListingStepReads(level, run[k], a, step.choice);
  }

  lemma ListingStepReads(level: Level, s: State, a: nat, choice: set<nat>)
    requires a in s.actors && s.actors[a].phase.Collecting? && s.actors[a].phase.stage == Reaped
    requires GcEnabled(s, s.actors[a].phase, choice)
    ensures var t, gc := DoGc(level, s, a, choice), s.actors[a].phase.gc;
      t.disk == s.disk && a in t.actors && t.actors[a].phase == Collecting(gc.(listed := ListedPins(s)), Listed)
  {
  }

  lemma StepFromListed(level: Level, s: State, step: Step, a: nat)
    requires Inv(level, s) && Enabled(level, s, step) && a in s.actors && a in Do(level, s, step).actors
    requires s.actors[a].phase.Collecting? && s.actors[a].phase.stage == Listed
    ensures ListedOrDeleting(s, Do(level, s, step), a)
  {
    if step.GcStep? && step.actor == a {
      ProbeChooses(level, s, a, step.choice);
    } else {
      assert ActorInv(level, s, a);
      assert !step.OsCrash?;
      OthersKeepActor(level, s, step, a);
      OthersLeaveDisk(level, s, step, a);
    }
  }

  lemma StepFromDeleting(level: Level, s: State, step: Step, a: nat)
    requires Inv(level, s) && Enabled(level, s, step) && a in s.actors && a in Do(level, s, step).actors
    requires Deletes(s.actors[a].phase)
    ensures Deletes(Do(level, s, step).actors[a].phase)
  {
    if step.GcStep? && step.actor == a {
      OwnPhase(level, s, a, step.choice);
    } else {
      OthersKeepActor(level, s, step, a);
    }
  }

  lemma {:induction false} AfterListing(level: Level, run: seq<State>, k: nat, i: nat, a: nat)
    requires IsRun(level, run) && ListsAt(run, k, a) && k < i < |run| && Runs(run, k, i, a)
    ensures ListedOrDeleting(run[k + 1], run[i], a)
    decreases i
  {
    assert a in run[i].actors;
    if i > k + 1 {
      AfterListing(level, run, k, i - 1, a);
      StepAfterListing(level, run, i - 1, a);
    }
  }

  lemma StepAfterListing(level: Level, run: seq<State>, i: nat, a: nat)
    requires IsRun(level, run) && i + 1 < |run| && a in run[i].actors && a in run[i + 1].actors
    requires run[i].actors[a].phase.Collecting?
    ensures run[i].actors[a].phase.stage == Listed ==> ListedOrDeleting(run[i], run[i + 1], a)
    ensures Deletes(run[i].actors[a].phase) ==> Deletes(run[i + 1].actors[a].phase)
  {
    var step := NextStep(level, run, i);
    if run[i].actors[a].phase.stage == Listed {
      StepFromListed(level, run[i], step, a);
    }
    if Deletes(run[i].actors[a].phase) {
      StepFromDeleting(level, run[i], step, a);
    }
  }

  /** The probe: the last state with the listing. */
  lemma {:induction false} ProbeHappened(level: Level, run: seq<State>, k: nat, j: nat, a: nat) returns (m: nat)
    requires IsRun(level, run) && ListsAt(run, k, a) && k < j < |run| && Runs(run, k, j, a)
    requires a in run[j].actors && Deletes(run[j].actors[a].phase)
    ensures k < m < j && a in run[m].actors && a in run[m + 1].actors
    ensures run[m].actors[a] == run[k + 1].actors[a] && run[m].disk == run[k + 1].disk
    ensures Deletes(run[m + 1].actors[a].phase)
    decreases j
  {
    assert a in run[j - 1].actors;
    AfterListing(level, run, k, j - 1, a);
    if Deletes(run[j - 1].actors[a].phase) {
      m := ProbeHappened(level, run, k, j - 1, a);
    } else {
      m := j - 1;
    }
  }

  /** What the probe may protect: everything listed whose process lives, and nothing that was not listed. */
  lemma ProbeReads(level: Level, run: seq<State>, m: nat, a: nat)
    requires IsRun(level, run) && m + 1 < |run| && a in run[m].actors && a in run[m + 1].actors
    requires run[m].actors[a].phase.Collecting? && run[m].actors[a].phase.stage == Listed
    requires Deletes(run[m + 1].actors[a].phase)
    ensures run[m + 1].disk == run[m].disk
    ensures var gc, next := run[m].actors[a].phase.gc, run[m + 1].actors[a].phase.gc;
      && next.schedule == gc.schedule && next.head == gc.head
      && Protected(gc.listed, run[m].alive) <= next.live <= PinnedGens(gc)
  {
    var step := NextStep(level, run, m);
    OnlyItMoves(level, run[m], step, a);
    ProbeStepReads(level, run[m], a, step.choice);
  }

  lemma ProbeStepReads(level: Level, s: State, a: nat, choice: set<nat>)
    requires a in s.actors && s.actors[a].phase.Collecting? && s.actors[a].phase.stage == Listed
    requires GcEnabled(s, s.actors[a].phase, choice)
    ensures a in DoGc(level, s, a, choice).actors && DoGc(level, s, a, choice).disk == s.disk
    ensures DoGc(level, s, a, choice).actors[a].phase.Collecting?
    ensures var gc, next := s.actors[a].phase.gc, DoGc(level, s, a, choice).actors[a].phase.gc;
      && next.schedule == gc.schedule && next.head == gc.head
      && Protected(gc.listed, s.alive) <= next.live <= PinnedGens(gc)
  {
  }

  // -- What a collection removes -------------------------------------------------------------------------

  /** Between `s`, where it is about to list the pins, and `t` the collector has removed and journaled what its
      schedule takes when the generations in `live` are pinned, and nothing else is removed or journaled. */
  ghost predicate RemovedExactly(s: State, t: State, schedule: Schedule, live: set<nat>) {
    ValidSchedule(schedule) && s.log != [] && Removed(s.disk, t.disk, schedule, live, |s.log| - 1)
  }

  ghost predicate Removed(d: Disk, e: Disk, schedule: Schedule, live: set<nat>, head: nat)
    requires ValidSchedule(schedule)
  {
    forall g: nat ::
      var taken := Takes(schedule, d.OnDisk(), live, head, g);
      && (e.Has(g) <==> d.Has(g) && !taken)
      && (g in Reclaimed(e.journal.now) <==> g in Reclaimed(d.journal.now) || taken)
  }

  /** The collector has nothing left to delete. */
  predicate DoneDeleting(s: State, a: nat) {
    a in s.actors && Deletes(s.actors[a].phase) && s.actors[a].phase.gc.victims == []
  }

  /** A collection that ran to its end, among any other processes: the pins that protected were listed, those of
      living processes all did, and exactly what the schedule takes from the rest is gone. */
  lemma CollectionIsExact(level: Level, run: seq<State>, k: nat, j: nat, a: nat) returns (m: nat, live: set<nat>)
    requires IsRun(level, run) && ListsAt(run, k, a) && k < j < |run| && Runs(run, k, j, a)
    requires a in run[j].actors && DoneDeleting(run[j], a)
    ensures k < m < j && Protected(ListedPins(run[k]), run[m].alive) <= live
    ensures forall g :: g in live ==> exists pin :: pin in run[k].pins && run[k].pins[pin].gen == g
    ensures RemovedExactly(run[k], run[j], run[k].actors[a].phase.gc.schedule, live)
  {
    m := ProbeHappened(level, run, k, j, a);
    ListingReads(level, run, k, a);
    ProbeReads(level, run, m, a);
    var size: Sizer := (s: Snapshot) => 0;
    var gc := run[m + 1].actors[a].phase.gc;
    live := gc.live;
    assert a in run[m + 1].actors && run[m + 1].actors[a] != run[m].actors[a];
    CollectorIsKilledRun(size, level, run, m, j, a);
    FullRunRemoves(size, run[m + 1].disk, run[j].disk, gc.schedule, live, gc.head);
  }

  lemma FullRunRemoves(size: Sizer, d: Disk, e: Disk, schedule: Schedule, live: set<nat>, head: nat)
    requires ValidSchedule(schedule) && FilesOn(size, e) == FullRun(schedule, FilesOn(size, d), live, head)
    ensures Removed(d, e, schedule, live, head)
  {
    assert FilesOn(size, d).gens.Keys == d.OnDisk() && FilesOn(size, e).gens.Keys == e.OnDisk();
    forall g: nat
      ensures var taken := Takes(schedule, d.OnDisk(), live, head, g);
        && (e.Has(g) <==> d.Has(g) && !taken)
        && (g in Reclaimed(e.journal.now) <==> g in Reclaimed(d.journal.now) || taken)
    {
      FullRunExact(schedule, FilesOn(size, d), live, head, g);
    }
  }

  // -- After the close -------------------------------------------------------------------------------------

  /** The generations pinned by anybody but call `a`. */
  function PinnedByOthers(s: State, a: nat): set<nat> {
    set pin | pin in s.pins && s.pins[pin].owner != a :: s.pins[pin].gen
  }

  /** More pins never make a schedule take more. */
  lemma FewerPinsTakeMore(schedule: Schedule, onDisk: set<nat>, small: set<nat>, large: set<nat>, head: nat, g: nat)
    requires ValidSchedule(schedule) && small <= large && Takes(schedule, onDisk, large, head, g)
    ensures Takes(schedule, onDisk, small, head, g)
  {
    VictimsExact(schedule, onDisk, large, head, g);
    FewerLiveMoreVictims(schedule, onDisk, small, large, head, g);
    VictimsExact(schedule, onDisk, small, head, g);
  }

  /** A closed handle protects nothing: a collection `b` that lists the pins after the close and runs to its end
      removes every generation its schedule takes when only the pins of the other calls count. */
  lemma ClosedHandleIsCollected(level: Level, run: seq<State>, c: nat, k: nat, j: nat, a: nat, b: nat, g: nat)
    requires IsRun(level, run) && ClosedAt(level, run, c, a) && c < k
    requires ListsAt(run, k, b) && k < j < |run| && Runs(run, k, j, b)
    requires b in run[j].actors && DoneDeleting(run[j], b)
    requires var schedule := run[k].actors[b].phase.gc.schedule;
      && ValidSchedule(schedule) && run[k].log != []
      && Takes(schedule, run[k].disk.OnDisk(), PinnedByOthers(run[k], a), |run[k].log| - 1, g)
    ensures !run[j].disk.Has(g) && g in Reclaimed(run[j].disk.journal.now)
  {
    ClosedHandleLeavesNoPin(level, run, c, k, a);
    var m, live := CollectionIsExact(level, run, k, j, b);
    forall h | h in live ensures h in PinnedByOthers(run[k], a) {
      var pin :| pin in run[k].pins && run[k].pins[pin].gen == h;
      assert HasNoPin(run[k], a);
    }
    FewerPinsTakeMore(run[k].actors[b].phase.gc.schedule, run[k].disk.OnDisk(), live, PinnedByOthers(run[k], a),
                      |run[k].log| - 1, g);
  }
}
