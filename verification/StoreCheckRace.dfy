/** `check` runs without the lock: it lists the directory, then reads HEAD, then the journal.  When it is right. */
module StoreCheckRace {
  import opened Options
  import opened StoreDisk
  import opened Retention
  import opened StoreMachine
  import opened StoreInvariant
  import opened StoreSteps
  import opened StoreTheorems
  import opened StoreScenarios
  import opened StorePins
  import opened StoreCheck

  // -- The journal only grows ------------------------------------------------------------------------

  function Gone(s: State): set<nat> {
    Reclaimed(s.disk.journal.now)
  }

  lemma PubLeavesJournal(level: Level, s: State, a: nat)
    requires a in s.actors && s.actors[a].phase.Publishing? && PubEnabled(level, s, a, s.actors[a].phase)
    ensures DoPub(level, s, a).disk.journal.now == s.disk.journal.now
  {
  }

  lemma GcGrowsJournal(level: Level, s: State, a: nat, choice: set<nat>)
    requires a in s.actors && ActorInv(level, s, a) && s.actors[a].phase.Collecting?
    requires GcEnabled(s, s.actors[a].phase, choice)
    ensures Gone(s) <= Gone(DoGc(level, s, a, choice))
  {
    GcDiskStep(level, s, a, choice);
  }

  lemma JournalGrowsOnce(level: Level, run: seq<State>, i: nat)
    requires IsRun(level, run) && SoftAt(level, run, i)
    ensures Gone(run[i]) <= Gone(run[i + 1])
  {
    var s := run[i];
    var step :| Enabled(level, s, step) && !step.OsCrash? && run[i + 1] == Do(level, s, step);
    match step
    case PubStep(a) => PubLeavesJournal(level, s, a);
    case GcStep(a, choice) =>
      RunInv(level, run, i);
      GcGrowsJournal(level, s, a, choice);
    case OpenStep(a) => assert DoOpen(s, a).disk == s.disk;
    case _ =>
  }

  lemma {:induction false} JournalGrows(level: Level, run: seq<State>, i: nat, j: nat)
    requires IsRun(level, run) && i <= j < |run| && SoftStretch(level, run, i, j)
    ensures Gone(run[i]) <= Gone(run[j])
    decreases j
  {
    if i < j {
      JournalGrows(level, run, i, j - 1);
      assert SoftAt(level, run, j - 1);
      JournalGrowsOnce(level, run, j - 1);
    }
  }

  // -- A check that takes time -------------------------------------------------------------------------

  /** What `check` has read when it listed the directory in state `listing`, HEAD in state `pointer` and the journal
      in state `record`; what it found in the files does not matter here. */
  ghost predicate Reads(v: View, listing: State, pointer: State, record: State) {
    && v.gens.Keys == ListedGens(listing.disk)
    && v.head == (if pointer.disk.head.now.Present? then Number(pointer.disk.head.now.val) else NoHead)
    && v.reclaimed == Gone(record)
  }

  ghost predicate ReportsLoss(v: View) {
    exists issue :: Holds(v, issue) && LostGeneration(issue)
  }

  /** Committed after the listing and before HEAD was read, its file not yet there when the directory was listed, and
      not reclaimed - or itself HEAD. */
  predicate Overtaken(listing: State, pointer: State, record: State, g: nat) {
    |listing.log| <= g < |pointer.log| && !listing.disk.Has(g) && (g + 1 == |pointer.log| || g !in Gone(record))
  }

  /** While nothing but the protocol touches the store, an unlocked `check` reports a lost generation exactly when
      publications overtook it. */
  lemma FalseLossIffOvertaken(level: Level, run: seq<State>, i: nat, j: nat, k: nat, v: View)
    requires IsRun(level, run) && i <= j <= k < |run| && SoftStretch(level, run, i, j) && SoftStretch(level, run, j, k)
    requires Reads(v, run[i], run[j], run[k])
    requires v.head.Number? ==> Listable(v.head.gen)
    ensures ReportsLoss(v) <==> exists g :: Overtaken(run[i], run[j], run[k], g)
  {
    HeadNamesAWholeHistory(level, run, i);
    HeadNamesAWholeHistory(level, run, j);
    LogGrows(level, run, i, j);
    JournalGrows(level, run, i, j);
    JournalGrows(level, run, j, k);
    if ReportsLoss(v) {
      var issue :| Holds(v, issue) && LostGeneration(issue);
      LossIsOvertaken(v, run[i], run[j], run[k], issue);
    }
    if g: nat :| Overtaken(run[i], run[j], run[k], g) {
      OvertakenIsLoss(v, run[i], run[j], run[k], g);
    }
  }

  lemma LossIsOvertaken(v: View, listing: State, pointer: State, record: State, issue: Issue)
    requires Reads(v, listing, pointer, record) && Holds(v, issue) && LostGeneration(issue)
    requires HeadOf(pointer.disk.head.now) == (if pointer.log == [] then None else Some(|pointer.log| - 1))
    requires listing.log <= pointer.log && Gone(listing) <= Gone(record)
    requires v.head.Number? ==> Listable(v.head.gen)
    requires listing.log != [] ==> listing.disk.Has(|listing.log| - 1)
    requires forall g: nat :: g < |listing.log| && !listing.disk.Has(g) ==> g in Gone(listing)
    ensures Overtaken(listing, pointer, record, issue.gen)
  {
    var g := issue.gen;
    assert g in ListedGens(listing.disk) <==> listing.disk.Has(g) && Listable(g);
  }

  lemma OvertakenIsLoss(v: View, listing: State, pointer: State, record: State, g: nat)
    requires Reads(v, listing, pointer, record) && Overtaken(listing, pointer, record, g)
    requires HeadOf(pointer.disk.head.now) == (if pointer.log == [] then None else Some(|pointer.log| - 1))
    ensures ReportsLoss(v)
  {
    assert g !in ListedGens(listing.disk);
    if g + 1 == |pointer.log| {
      assert Holds(v, HeadDangling(g));
    } else {
      assert Holds(v, GenGap(g));
    }
  }

  // -- Files that go away between listing and opening ---------------------------------------------------

  lemma VanishesOnce(level: Level, run: seq<State>, i: nat, g: nat)
    requires IsRun(level, run) && SoftAt(level, run, i) && run[i].disk.Has(g) && !run[i + 1].disk.Has(g)
    ensures g in Gone(run[i]) && g + 1 < |run[i].log|
  {
    var step :| Enabled(level, run[i], step) && !step.OsCrash? && run[i + 1] == Do(level, run[i], step);
    RunInv(level, run, i);
    var a := Remover(level, run[i], step, g);
    VictimIsUnpinned(level, run, i, a);
  }

  /** A file that was there and is gone was reclaimed: it is journaled, and below HEAD. */
  lemma {:induction false} VanishedIsReclaimed(level: Level, run: seq<State>, i: nat, m: nat, g: nat)
    requires IsRun(level, run) && i <= m < |run| && SoftStretch(level, run, i, m)
    requires run[i].disk.Has(g) && !run[m].disk.Has(g)
    ensures g in Gone(run[m]) && g + 1 < |run[m].log|
    decreases m
  {
    assert SoftAt(level, run, m - 1);
    if run[m - 1].disk.Has(g) {
      VanishesOnce(level, run, m - 1, g);
    } else {
      VanishedIsReclaimed(level, run, i, m - 1, g);
    }
    StaysReclaimed(level, run, m - 1, g);
  }

  lemma StaysReclaimed(level: Level, run: seq<State>, i: nat, g: nat)
    requires IsRun(level, run) && SoftAt(level, run, i) && g in Gone(run[i]) && g + 1 < |run[i].log|
    ensures g in Gone(run[i + 1]) && g + 1 < |run[i + 1].log|
  {
    JournalGrowsOnce(level, run, i);
    LogGrowsOnce(level, run, i);
  }

  lemma FilesCarryTheirNumber(level: Level, run: seq<State>, m: nat, g: nat)
    requires IsRun(level, run) && m < |run| && run[m].disk.Has(g)
    ensures run[m].disk.GenSlot(g).now.val.generation == g
  {
    RunInv(level, run, m);
  }

  /** What opening generation file `g` finds. */
  function FileSeen(s: State, g: nat): GenRead {
    if !s.disk.Has(g) then Unreadable
    else if s.disk.GenSlot(g).now.val.generation == g then Valid
    else NumberMismatch
  }

  /** Every listed file was opened at some moment of its own, between state `j` and state `k`. */
  ghost predicate OpensFiles(v: View, run: seq<State>, at: map<nat, nat>, j: nat, k: nat) {
    && at.Keys == v.gens.Keys
    && forall g :: g in at ==> j <= at[g] <= k && at[g] < |run| && v.gens[g] == FileSeen(run[at[g]], g)
  }

  /** Listed before, reclaimed by a collector since. */
  predicate ReclaimedSince(listing: State, now: State, g: nat) {
    && Listable(g) && listing.disk.Has(g) && !now.disk.Has(g)
    && g in Gone(now) && g + 1 < |now.log|
  }

  /** While nothing but the protocol touches the store, `check` finds a file unreadable exactly when a collector
      reclaimed it between the listing and its opening, and never finds a wrong number or hash. */
  lemma UnreadableIffReclaimed(level: Level, run: seq<State>, i: nat, j: nat, k: nat, v: View, at: map<nat, nat>,
                               g: nat)
    requires IsRun(level, run) && i <= j <= k < |run| && SoftStretch(level, run, i, k)
    requires Reads(v, run[i], run[j], run[k]) && OpensFiles(v, run, at, j, k)
    ensures Holds(v, GenUnreadable(g)) <==> g in at && ReclaimedSince(run[i], run[at[g]], g)
    ensures !Holds(v, GenHashMismatch(g)) && !Holds(v, GenNumberMismatch(g))
  {
    if g in v.gens {
      assert g in ListedGens(run[i].disk);
      if run[at[g]].disk.Has(g) {
        FilesCarryTheirNumber(level, run, at[g], g);
      } else {
        assert SoftStretch(level, run, i, at[g]);
        VanishedIsReclaimed(level, run, i, at[g], g);
      }
    }
  }

  // -- Two publications in between are enough ----------------------------------------------------------

  /** Two publications in between always overtake the listing, three after a machine crash. */
  lemma ManyPublicationsOvertake(level: Level, run: seq<State>, i: nat, j: nat, k: nat)
    requires IsRun(level, run) && i < |run| && j < |run| && k < |run|
    requires |run[j].log| >= |run[i].log| + (if run[i].crashed then 3 else 2)
    ensures Overtaken(run[i], run[j], run[k], |run[j].log| - 1)
  {
    RunInv(level, run, i);
  }

  lemma {:induction false} NeverCrashed(level: Level, run: seq<State>, i: nat, j: nat)
    requires IsRun(level, run) && i <= j < |run| && !run[j].crashed
    ensures SoftStretch(level, run, i, j) && !run[i].crashed
    decreases j
  {
    if i < j {
      NotCrashedOnce(level, run, j - 1);
      NeverCrashed(level, run, i, j - 1);
    }
  }

  lemma NotCrashedOnce(level: Level, run: seq<State>, i: nat)
    requires IsRun(level, run) && i + 1 < |run| && !run[i + 1].crashed
    ensures SoftAt(level, run, i) && !run[i].crashed
  {
    var step := NextStep(level, run, i);
    StepHistory(level, run[i], step);
  }

  /** Two publications between the listing and the reading of HEAD make `check` report a loss in a store where
      nothing was lost. */
  lemma TwoPublicationsOvertake(level: Level) returns (run: seq<State>, i: nat, v: View)
    ensures IsRun(level, run) && i < |run| && SoftStretch(level, run, i, |run| - 1)
    ensures Reads(v, run[i], Last(run), Last(run)) && ReportsLoss(v)
    ensures forall g: nat :: g < |Last(run).log| ==> Last(run).disk.Has(g)
  {
    run := PublishMany(level, 0, "");
    i := |run| - 1;
    RunInv(level, run, i);
    var listing := run[i];
    run := Publish(level, run, 0, "");
    run := Publish(level, run, 0, "");
    assert run[i] == listing;
    NeverCrashed(level, run, i, |run| - 1);
    v := View(Number(1), map g | g in ListedGens(listing.disk) :: Valid, Gone(Last(run)), [], false);
    assert Overtaken(listing, Last(run), Last(run), 1);
    OvertakenIsLoss(v, listing, Last(run), Last(run), 1);
  }

  // -- A reclaim in between is enough --------------------------------------------------------------------

  /** While some process lives through a stretch the machine does not crash in it. */
  lemma LifeIsSoft(level: Level, run: seq<State>, longer: seq<State>, pin: nat)
    requires LivesThrough(level, run, longer, pin)
    ensures SoftStretch(level, longer, |run| - 1, |longer| - 1)
  {
    forall k: nat | |run| - 1 <= k < |longer| - 1 ensures SoftAt(level, longer, k) {
      var step := StepTaken(level, longer, k);
      assert PinnerAlive(longer[k + 1], pin);
    }
  }

  /** A generation reclaimed between the listing and its opening is reported unreadable, in a healthy store. */
  lemma ReclaimIsReportedUnreadable(level: Level) returns (run: seq<State>, i: nat, v: View, at: map<nat, nat>)
    ensures IsRun(level, run) && i < |run| && SoftStretch(level, run, i, |run| - 1)
    ensures Reads(v, run[i], Last(run), Last(run)) && OpensFiles(v, run, at, |run| - 1, |run| - 1)
    ensures Holds(v, GenUnreadable(0)) && ReclaimedSince(run[i], Last(run), 0)
  {
    var early, pin;
    early, run, pin := OpenHandleOverrun(level);
    i := |early| - 1;
    assert run[i] == Last(early);
    LifeIsSoft(level, early, run, pin);
    assert 0 in ListedGens(run[i].disk);
    var s, t := run[i], Last(run);
    at := map g | g in ListedGens(s.disk) :: |run| - 1;
    v := View(if t.disk.head.now.Present? then Number(t.disk.head.now.val) else NoHead,
              map g | g in ListedGens(s.disk) :: FileSeen(t, g), Gone(t), [], false);
    UnreadableIffReclaimed(level, run, i, |run| - 1, |run| - 1, v, at, 0);
  }
}
