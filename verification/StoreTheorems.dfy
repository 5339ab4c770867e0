/** What every run of the store guarantees to publishers, readers and operators. */
module StoreTheorems {
  import opened Options
  import opened StoreDisk
  import opened Retention
  import opened StoreMachine
  import opened StoreDiskSafety
  import opened StoreInvariant
  import opened StoreSteps

  lemma NextStep(level: Level, run: seq<State>, i: nat) returns (step: Step)
    requires IsRun(level, run) && i + 1 < |run|
    ensures Inv(level, run[i])
    ensures Enabled(level, run[i], step) && run[i + 1] == Do(level, run[i], step)
  {
    step := StepTaken(level, run, i);
    RunInv(level, run, i);
  }

  lemma StepTaken(level: Level, run: seq<State>, i: nat) returns (step: Step)
    requires IsRun(level, run) && i + 1 < |run|
    ensures Enabled(level, run[i], step) && run[i + 1] == Do(level, run[i], step)
  {
    assert StepAt(level, run, i);
    step :| Enabled(level, run[i], step) && run[i + 1] == Do(level, run[i], step);
  }

  /** A publisher's step appends to the history only at the HEAD rename and at the return. */
  lemma PubHistory(level: Level, s: State, a: nat)
    requires a in s.actors && s.actors[a].phase.Publishing?
    requires PubEnabled(level, s, a, s.actors[a].phase)
    ensures var t, p := DoPub(level, s, a), s.actors[a].phase;
      && t.crashed == s.crashed
      && t.log == (if p.pub == HeadFileSynced then s.log + [Commit(p.snap, a)] else s.log)
      && t.acked == (if p.pub == HeadSynced then s.acked[p.snap.generation := p.snap] else s.acked)
  {
  }

  lemma PubFrame(level: Level, s: State, a: nat)
    requires a in s.actors && s.actors[a].phase.Publishing?
    requires PubEnabled(level, s, a, s.actors[a].phase)
    ensures var t := DoPub(level, s, a);
      && (forall b :: b in t.actors && b != a ==> b in s.actors && t.actors[b] == s.actors[b])
      && (a in t.actors ==> t.actors[a].phase.Publishing?)
  {
    var t := DoPub(level, s, a);
    if s.actors[a].phase.pub == HeadSynced {
      assert t.actors == s.actors - {a};
    } else {
      assert a in t.actors && t.actors == s.actors[a := t.actors[a]];
    }
  }

  /** Publishing never removes a generation file. */
  lemma PubKeepsFiles(level: Level, s: State, a: nat, g: nat)
    requires a in s.actors && s.actors[a].phase.Publishing? && ActorInv(level, s, a)
    requires PubEnabled(level, s, a, s.actors[a].phase)
    requires s.disk.Has(g)
    ensures DoPub(level, s, a).disk.Has(g)
  {
    if s.actors[a].phase.pub == BaseChecked {
      RenamedGen(s.disk, s.actors[a].phase.snap.generation, s.tmp.gens[a].file);
    } else if s.actors[a].phase.pub == GenRenamed || s.actors[a].phase.pub == HeadRenamed {
      DirsyncSettles(s.disk);
    } else {
      assert DoPub(level, s, a).disk.gens == s.disk.gens;
    }
  }

  /** Which steps may change the history. */
  lemma StepHistory(level: Level, s: State, step: Step)
    requires Inv(level, s) && Enabled(level, s, step)
    ensures var t := Do(level, s, step);
      && t.crashed == (s.crashed || step.OsCrash?)
      && (!step.PubStep? && !step.OsCrash? ==> t.log == s.log)
      && (!step.PubStep? ==> t.acked == s.acked)
  {
    match step
    case PubStep(a) => PubHistory(level, s, a);
    case GcStep(a, choice) => GcFrame(level, s, a, choice);
    case OpenStep(a) => OpenFrame(s, a);
    case _ =>
  }

  // -- Publication -----------------------------------------------------------------------------

  /** A step that is not a crash of the machine. */
  ghost predicate Soft(level: Level, s: State, t: State) {
    exists step :: Enabled(level, s, step) && !step.OsCrash? && t == Do(level, s, step)
  }

  /** A stretch of a run, anywhere in it, without a crash of the machine. */
  ghost predicate SoftStretch(level: Level, run: seq<State>, i: nat, j: nat)
    requires i <= j < |run|
  {
    forall k: nat :: i <= k < j ==> SoftAt(level, run, k)
  }

  ghost predicate SoftAt(level: Level, run: seq<State>, i: nat) {
    i + 1 < |run| && Soft(level, run[i], run[i + 1])
  }

  /** Every step of every run leaves HEAD alone, moves it to the next number for the publisher whose declared
      base it was, or is a crash of the machine that takes back at most the last commit. */
  lemma HeadAdvancesByOne(level: Level, run: seq<State>, i: nat)
    requires IsRun(level, run) && i + 1 < |run|
    ensures SoftAt(level, run, i) ==> HeadMoves(run[i], run[i + 1])
    ensures !SoftAt(level, run, i) ==> level.AtLeast(L2) && CrashMoves(run[i], run[i + 1])
  {
    if SoftAt(level, run, i) {
      SoftStepMovesHead(level, run, i);
    } else {
      var step := NextStep(level, run, i);
      CrashMovesHead(level, run[i], step.after, step.left);
    }
  }

  /** HEAD after a crash: what it was, or one less. */
  ghost predicate CrashMoves(s: State, t: State) {
    && t.crashed && (t.log == s.log || (s.log != [] && t.log == s.log[..|s.log| - 1]))
    && HeadOf(t.disk.head.now) == (if t.log == [] then None else Some(|t.log| - 1))
    && forall g :: g in s.acked ==> g < |t.log|
  }

  lemma CrashMovesHead(level: Level, s: State, after: Disk, left: Staging)
    requires HeadDurable(s.disk, s.log, s.acked.Keys) && s.disk.CrashOutcome(after)
    ensures CrashMoves(s, DoOsCrash(s, after, left))
  {
    CrashOfHead(s.disk, s.log, s.acked.Keys, after);
    assert s.log[..|s.log|] == s.log;
  }

  lemma SoftStepMovesHead(level: Level, run: seq<State>, i: nat)
    requires IsRun(level, run) && i + 1 < |run| && SoftAt(level, run, i)
    ensures HeadMoves(run[i], run[i + 1])
  {
    RunInv(level, run, i);
    var s := run[i];
    var step :| Enabled(level, s, step) && !step.OsCrash? && run[i + 1] == Do(level, s, step);
    if step.PubStep? {
      PublisherMovesHead(level, s, step.actor);
    } else {
      OthersKeepHead(level, s, step);
    }
  }

  lemma PublisherMovesHead(level: Level, s: State, a: nat)
    requires Length(s.disk.head.now) == |s.log| && a in s.actors && ActorInv(level, s, a)
    requires s.actors[a].phase.Publishing?
    requires PubEnabled(level, s, a, s.actors[a].phase)
    ensures HeadMoves(s, DoPub(level, s, a))
  {
    PubHistory(level, s, a);
    if s.actors[a].phase.pub == HeadFileSynced {
      assert PublishedBy(s, DoPub(level, s, a), a);
    }
  }

  lemma OthersKeepHead(level: Level, s: State, step: Step)
    requires Inv(level, s) && Enabled(level, s, step) && !step.PubStep? && !step.OsCrash?
    ensures Do(level, s, step).log == s.log && HeadOf(Do(level, s, step).disk.head.now) == HeadOf(s.disk.head.now)
  {
    StepHistory(level, s, step);
    match step
    case GcStep(a, choice) => GcDiskStep(level, s, a, choice);
    case OpenStep(a) => OpenFrame(s, a);
    case _ =>
  }

  ghost predicate HeadMoves(s: State, t: State) {
    || (t.log == s.log && HeadOf(t.disk.head.now) == HeadOf(s.disk.head.now))
    || exists a :: PublishedBy(s, t, a)
  }

  ghost predicate PublishedBy(s: State, t: State, a: nat) {
    && a in s.actors && s.actors[a].phase.Publishing?
    && s.actors[a].phase.base == HeadOf(s.disk.head.now)
    && t.log == s.log + [Commit(s.actors[a].phase.snap, a)]
    && HeadOf(t.disk.head.now) == Some(|s.log|)
    && s.actors[a].phase.snap.generation == |s.log|
  }

  /** Committed history is only ever extended while the machine stays up. */
  lemma {:induction false} LogGrows(level: Level, run: seq<State>, i: nat, j: nat)
    requires IsRun(level, run) && i <= j < |run| && SoftStretch(level, run, i, j)
    ensures run[i].log <= run[j].log
    decreases j
  {
    if i < j {
      LogGrows(level, run, i, j - 1);
      LogGrowsOnce(level, run, j - 1);
    }
  }

  lemma LogGrowsOnce(level: Level, run: seq<State>, i: nat)
    requires IsRun(level, run) && i + 1 < |run| && SoftAt(level, run, i)
    ensures run[i].log <= run[i + 1].log
  {
    SoftStepMovesHead(level, run, i);
  }

  /** HEAD has taken exactly the values 0, 1, 2, ... in order, each won by a different `publish`
      call; its file is present and carries its number; older commits are present or journaled. */
  lemma HeadNamesAWholeHistory(level: Level, run: seq<State>, i: nat)
    requires IsRun(level, run) && i < |run|
    ensures var s := run[i];
      && HeadOf(s.disk.head.now) == (if s.log == [] then None else Some(|s.log| - 1))
      && (forall g: nat :: g < |s.log| ==> s.log[g].snap.generation == g)
      && (forall g, h :: 0 <= g < h < |s.log| ==> s.log[g].writer != s.log[h].writer)
      && (s.log != [] ==> s.disk.Has(|s.log| - 1))
      && (forall g: nat :: g < |s.log| ==>
            if s.disk.Has(g) then s.disk.GenSlot(g).now.val == s.log[g].snap
            else g in Reclaimed(s.disk.journal.now) && g + 1 < |s.log|)
  {
    RunInv(level, run, i);
  }

  /** The L3 re-read before acknowledgement cannot fail. */
  lemma VerificationSucceeds(level: Level, run: seq<State>, i: nat, a: nat)
    requires IsRun(level, run) && i < |run| && a in run[i].actors
    requires run[i].actors[a].phase.Publishing? && run[i].actors[a].phase.pub == HeadSynced
    ensures Verified(run[i], run[i].actors[a].phase.snap)
  {
    RunInv(level, run, i);
    assert ActorInv(level, run[i], a);
  }

  // -- Readers ---------------------------------------------------------------------------------

  /** A handle opened on HEAD, or explicitly on a committed generation, holds the content committed for it,
      whatever has been published, reclaimed or repaired since the handle was seen. */
  lemma HandlesHoldCommittedContent(level: Level, run: seq<State>, i: nat, j: nat, a: nat)
    requires IsRun(level, run) && i <= j < |run| && SoftStretch(level, run, i, j)
    requires a in run[i].actors && run[i].actors[a].phase.Holding? && run[i].actors[a].phase.committed
    ensures var h := run[i].actors[a].phase;
      && h.gen < |run[j].log| && h.snap == run[j].log[h.gen].snap
      && (run[j].disk.Has(h.gen) ==> run[j].disk.GenSlot(h.gen).now.val == h.snap)
  {
    HandleIsCommitted(level, run, i, a);
    LogGrows(level, run, i, j);
    HeadNamesAWholeHistory(level, run, j);
  }

  lemma HandleIsCommitted(level: Level, run: seq<State>, i: nat, a: nat)
    requires IsRun(level, run) && i < |run|
    requires a in run[i].actors && run[i].actors[a].phase.Holding? && run[i].actors[a].phase.committed
    ensures var h := run[i].actors[a].phase; h.gen < |run[i].log| && h.snap == run[i].log[h.gen].snap
  {
    RunInv(level, run, i);
    assert ActorInv(level, run[i], a);
  }

  /** Two loads of one committed generation, at any two moments between crashes, return the same snapshot. */
  lemma LoadsAgree(level: Level, run: seq<State>, i: nat, j: nat, a: nat, b: nat)
    requires IsRun(level, run) && i <= j < |run| && SoftStretch(level, run, i, j)
    requires a in run[i].actors && run[i].actors[a].phase.Holding? && run[i].actors[a].phase.committed
    requires b in run[j].actors && run[j].actors[b].phase.Holding? && run[j].actors[b].phase.committed
    requires run[i].actors[a].phase.gen == run[j].actors[b].phase.gen
    ensures run[i].actors[a].phase.snap == run[j].actors[b].phase.snap
  {
    HandlesHoldCommittedContent(level, run, i, j, a);
    HandleIsCommitted(level, run, j, b);
  }

  /** `open()` binds committed content, and retries only when HEAD has already moved on. */
  lemma OpenHeadIsCommitted(level: Level, run: seq<State>, i: nat, a: nat)
    requires IsRun(level, run) && i < |run| && a in run[i].actors
    requires run[i].actors[a].phase.Pinned? && run[i].actors[a].phase.viaHead
    ensures var s, p, t := run[i], run[i].actors[a].phase, DoOpen(run[i], a);
      p.gen < |s.log| &&
      if s.disk.Has(p.gen)
      then a in t.actors && t.actors[a].phase == Holding(p.gen, p.pin, s.log[p.gen].snap, true)
      else p.gen + 1 < |s.log| && a in t.actors && t.actors[a].phase == Opening(None)
  {
    RunInv(level, run, i);
    assert ActorInv(level, run[i], a);
  }

  // -- Pins and deletion -----------------------------------------------------------------------

  /** A pin made while its generation was HEAD protects the file until it is released or its
      process dies. */
  lemma HeadPinProtects(level: Level, run: seq<State>, i: nat, pin: nat)
    requires IsRun(level, run) && i < |run|
    requires PinnerAlive(run[i], pin) && run[i].pins[pin].atHead
    ensures run[i].disk.Has(run[i].pins[pin].gen)
  {
    RunInv(level, run, i);
  }

  /** A run that has listed the pins did so in an earlier state of the run. */
  lemma {:induction false} ListingHappened(level: Level, run: seq<State>, i: nat, a: nat) returns (k: nat)
    requires IsRun(level, run) && i < |run|
    requires a in run[i].actors && HasListed(run[i].actors[a].phase)
    ensures k < i && a in run[k].actors && run[k].actors[a].phase.Collecting?
    ensures run[k].actors[a].phase.stage == Reaped
    ensures run[i].actors[a].phase.gc.listed == ListedPins(run[k])
  {
    if i == 0 {
      assert false;
    } else {
      var step := NextStep(level, run, i - 1);
      ListingStep(level, run[i - 1], step, a);
      if run[i - 1].actors[a].phase.Collecting? && run[i - 1].actors[a].phase.stage == Reaped {
        k := i - 1;
      } else {
        k := ListingHappened(level, run, i - 1, a);
      }
    }
  }

  /** A collector past the listing of the pins. */
  predicate HasListed(p: Phase) {
    p.Collecting? && !p.stage.Reaped? && (Scanning(p.stage) ==> p.stage.Listed?)
  }

  /** One step back from a listing: the listing itself, or the same listing. */
  lemma ListingStep(level: Level, s: State, step: Step, a: nat)
    requires Inv(level, s) && Enabled(level, s, step)
    requires a in Do(level, s, step).actors && HasListed(Do(level, s, step).actors[a].phase)
    ensures a in s.actors && s.actors[a].phase.Collecting?
    ensures var p, q := s.actors[a].phase, Do(level, s, step).actors[a].phase;
      if p.stage == Reaped then q.gc.listed == ListedPins(s) else HasListed(p) && q.gc.listed == p.gc.listed
  {
    if step.GcStep? && step.actor == a {
      GcListing(level, s, a, step.choice);
    } else {
      OthersKeepPhase(level, s, step, a);
    }
  }

  lemma GcListing(level: Level, s: State, a: nat, choice: set<nat>)
    requires a in s.actors && s.actors[a].phase.Collecting? && GcEnabled(s, s.actors[a].phase, choice)
    requires a in DoGc(level, s, a, choice).actors && HasListed(DoGc(level, s, a, choice).actors[a].phase)
    ensures var p, q := s.actors[a].phase, DoGc(level, s, a, choice).actors[a].phase;
      if p.stage == Reaped then q.gc.listed == ListedPins(s) else HasListed(p) && q.gc.listed == p.gc.listed
  {
    var stage := s.actors[a].phase.stage;
    if Scanning(stage) { ScanListing(level, s, a, choice); } else { LaterListing(level, s, a, choice); }
  }

  lemma ScanListing(level: Level, s: State, a: nat, choice: set<nat>)
    requires a in s.actors && s.actors[a].phase.Collecting? && GcEnabled(s, s.actors[a].phase, choice)
    requires Scanning(s.actors[a].phase.stage)
    requires a in DoGc(level, s, a, choice).actors && HasListed(DoGc(level, s, a, choice).actors[a].phase)
    ensures var p, q := s.actors[a].phase, DoGc(level, s, a, choice).actors[a].phase;
      if p.stage == Reaped then q.gc.listed == ListedPins(s) else HasListed(p) && q.gc.listed == p.gc.listed
  {
  }

  lemma LaterListing(level: Level, s: State, a: nat, choice: set<nat>)
    requires a in s.actors && s.actors[a].phase.Collecting? && GcEnabled(s, s.actors[a].phase, choice)
    requires !Scanning(s.actors[a].phase.stage)
    requires a in DoGc(level, s, a, choice).actors && HasListed(DoGc(level, s, a, choice).actors[a].phase)
    ensures HasListed(s.actors[a].phase)
    ensures DoGc(level, s, a, choice).actors[a].phase.gc.listed == s.actors[a].phase.gc.listed
  {
    if Finishing(s.actors[a].phase.stage) {
      SweepListing(level, s, a, choice);
    } else {
      DeleteListing(level, s, a, choice);
    }
  }

  lemma SweepListing(level: Level, s: State, a: nat, choice: set<nat>)
    requires a in s.actors && s.actors[a].phase.Collecting? && GcEnabled(s, s.actors[a].phase, choice)
    requires Finishing(s.actors[a].phase.stage)
    requires a in DoGc(level, s, a, choice).actors && HasListed(DoGc(level, s, a, choice).actors[a].phase)
    ensures HasListed(s.actors[a].phase)
    ensures DoGc(level, s, a, choice).actors[a].phase.gc.listed == s.actors[a].phase.gc.listed
  {
    var p := s.actors[a].phase;
    assert DoGc(level, s, a, choice) == GcSweep(level, s, a, p.gc, p.stage, choice);
  }

  lemma DeleteListing(level: Level, s: State, a: nat, choice: set<nat>)
    requires a in s.actors && s.actors[a].phase.Collecting? && GcEnabled(s, s.actors[a].phase, choice)
    requires !Scanning(s.actors[a].phase.stage) && !Finishing(s.actors[a].phase.stage)
    requires a in DoGc(level, s, a, choice).actors && HasListed(DoGc(level, s, a, choice).actors[a].phase)
    ensures HasListed(s.actors[a].phase)
    ensures DoGc(level, s, a, choice).actors[a].phase.gc.listed == s.actors[a].phase.gc.listed
  {
    var p := s.actors[a].phase;
    DeletionKeepsListing(level, s, a, p.gc, p.stage);
  }

  lemma DeletionKeepsListing(level: Level, s: State, a: nat, gc: Gc, stage: GcStage)
    requires a in s.actors && !Scanning(stage) && !Finishing(stage) && (stage == JournalSynced ==> gc.victims != [])
    ensures var t := GcDelete(level, s, a, gc, stage);
      a in t.actors ==> t.actors[a].phase.Collecting? && t.actors[a].phase.gc.listed == gc.listed
  {
  }

  lemma OthersKeepPhase(level: Level, s: State, step: Step, a: nat)
    requires Inv(level, s) && Enabled(level, s, step)
    requires a in Do(level, s, step).actors && !(step.GcStep? && step.actor == a)
    requires var p := Do(level, s, step).actors[a].phase; p.Collecting? && p.stage != Waiting
    ensures a in s.actors && s.actors[a] == Do(level, s, step).actors[a]
  {
    match step
    case PubStep(b) => PubFrame(level, s, b);
    case GcStep(b, choice) => GcFrame(level, s, b, choice);
    case OpenStep(b) => OpenFrame(s, b);
    case _ =>
  }

  /** Only a collector's unlink removes a generation file, and a live pin it overruns was made
      after that run listed the pins. */
  lemma DeletionOverrunsOnlyLaterPins(level: Level, run: seq<State>, i: nat, g: nat) returns (a: nat, k: nat)
    requires IsRun(level, run) && i + 1 < |run|
    requires run[i].disk.Has(g) && !run[i + 1].disk.Has(g)
    requires !exists after, left :: run[i + 1] == DoOsCrash(run[i], after, left)
    ensures a in run[i].actors && run[i].actors[a].phase.Collecting? && k < i
    ensures run[i].actors[a].phase.gc.listed == ListedPins(run[k])
    ensures g + 1 < |run[i].log| && g in Reclaimed(run[i].disk.journal.now)
    ensures forall pin :: PinnerAlive(run[i], pin) && run[i].pins[pin].gen == g ==>
      pin !in run[k].pins && !run[i].pins[pin].atHead
  {
    a := RemoverAt(level, run, i, g);
    k := ListingHappened(level, run, i, a);
    VictimIsUnpinned(level, run, i, a);
    PinsAreNumbered(level, run, k);
    forall pin | PinnerAlive(run[i], pin) && run[i].pins[pin].gen == g && pin in run[k].pins
      ensures pin in ListedPins(run[k])
    {
      PinRecordsStay(level, run, k, i, pin);
    }
  }

  lemma PinsAreNumbered(level: Level, run: seq<State>, i: nat)
    requires IsRun(level, run) && i < |run|
    ensures forall pin :: pin in run[i].pins ==> pin < run[i].nextPin
  {
    RunInv(level, run, i);
  }

  lemma RemoverAt(level: Level, run: seq<State>, i: nat, g: nat) returns (a: nat)
    requires IsRun(level, run) && i + 1 < |run|
    requires run[i].disk.Has(g) && !run[i + 1].disk.Has(g)
    requires !exists after, left :: run[i + 1] == DoOsCrash(run[i], after, left)
    ensures a in run[i].actors && run[i].actors[a].phase.Collecting? && run[i].actors[a].phase.stage == JournalSynced
    ensures run[i].actors[a].phase.gc.victims != [] && run[i].actors[a].phase.gc.victims[0] == g
  {
    var step := NextStep(level, run, i);
    a := Remover(level, run[i], step, g);
  }

  /** A victim about to be unlinked is journaled, below HEAD, and carries no listed pin and none made at HEAD. */
  lemma VictimIsUnpinned(level: Level, run: seq<State>, i: nat, a: nat)
    requires IsRun(level, run) && i < |run|
    requires a in run[i].actors && run[i].actors[a].phase.Collecting? && run[i].actors[a].phase.stage == JournalSynced
    ensures var s, gc := run[i], run[i].actors[a].phase.gc;
      && gc.victims != [] && gc.victims[0] + 1 < |s.log| && Listable(gc.victims[0])
      && gc.victims[0] in Reclaimed(s.disk.journal.now)
      && forall pin :: PinnerAlive(s, pin) && s.pins[pin].gen == gc.victims[0] ==>
            pin !in gc.listed && !s.pins[pin].atHead
  {
    RunInv(level, run, i);
    assert ActorInv(level, run[i], a);
    var gc := run[i].actors[a].phase.gc;
    assert gc.victims[0] in gc.victims;
  }

  /** A step makes at most new pins; it never changes one. */
  lemma PinsOnlyAppear(level: Level, s: State, step: Step)
    requires Inv(level, s) && Enabled(level, s, step)
    ensures var t := Do(level, s, step);
      && t.nextPin >= s.nextPin
      && forall pin :: pin in t.pins && pin < s.nextPin ==> pin in s.pins && t.pins[pin] == s.pins[pin]
  {
    match step
    case PubStep(a) => PubPinFrame(level, s, a);
    case GcStep(a, choice) => GcFrame(level, s, a, choice);
    case OpenStep(a) => OpenFrame(s, a);
    case _ =>
  }

  lemma PubPinFrame(level: Level, s: State, a: nat)
    requires a in s.actors && s.actors[a].phase.Publishing? && PubEnabled(level, s, a, s.actors[a].phase)
    ensures DoPub(level, s, a).pins == s.pins && DoPub(level, s, a).nextPin == s.nextPin
  {
  }

  lemma {:induction false} PinRecordsStay(level: Level, run: seq<State>, k: nat, i: nat, pin: nat)
    requires IsRun(level, run) && k <= i < |run| && pin in run[i].pins && pin < run[k].nextPin
    ensures pin in run[k].pins && run[k].pins[pin] == run[i].pins[pin]
    decreases i
  {
    if k < i {
      NextPinGrows(level, run, k, i - 1);
      PinsOnlyAppearAt(level, run, i - 1);
      PinRecordsStay(level, run, k, i - 1, pin);
    }
  }

  lemma {:induction false} NextPinGrows(level: Level, run: seq<State>, k: nat, i: nat)
    requires IsRun(level, run) && k <= i < |run|
    ensures run[k].nextPin <= run[i].nextPin
    decreases i
  {
    if k < i {
      NextPinGrows(level, run, k, i - 1);
      PinsOnlyAppearAt(level, run, i - 1);
    }
  }

  lemma PinsOnlyAppearAt(level: Level, run: seq<State>, i: nat)
    requires IsRun(level, run) && i + 1 < |run|
    ensures var s, t := run[i], run[i + 1];
      && t.nextPin >= s.nextPin
      && forall pin :: pin in t.pins && pin < s.nextPin ==> pin in s.pins && t.pins[pin] == s.pins[pin]
  {
    var step := NextStep(level, run, i);
    PinsOnlyAppear(level, run[i], step);
  }

  lemma Remover(level: Level, s: State, step: Step, g: nat) returns (a: nat)
    requires Enabled(level, s, step) && s.disk.Has(g) && !Do(level, s, step).disk.Has(g)
    requires step.OsCrash? ==> Do(level, s, step) != DoOsCrash(s, step.after, step.left)
    requires forall b :: b in s.actors ==> ActorInv(level, s, b)
    ensures a in s.actors && s.actors[a].phase.Collecting? && s.actors[a].phase.stage == JournalSynced
    ensures s.actors[a].phase.gc.victims != [] && s.actors[a].phase.gc.victims[0] == g
  {
    a := if step.GcStep? then step.actor else 0;
    DirsyncSettles(s.disk);
    match step
    case PubStep(b) => PubKeepsFiles(level, s, b, g);
    case GcStep(b, choice) => GcDiskStep(level, s, b, choice);
    case OpenStep(b) => OpenFrame(s, b);
    case _ =>
  }

  // -- Durability ------------------------------------------------------------------------------

  /** At L2 and above, whatever subset of unsynced entry changes survives a crash of the machine:
      HEAD names a surviving complete file, is at least every acknowledged generation, keeps the
      acknowledged content, and every missing generation below it is in the surviving journal. */
  lemma CrashLeavesASoundStore(level: Level, run: seq<State>, i: nat, after: Disk)
    requires IsRun(level, run) && i < |run| && level.AtLeast(L2)
    requires run[i].disk.CrashOutcome(after)
    ensures var n := Length(after.head.now);
      && n <= |run[i].log| <= n + 1
      && (n > 0 ==> after.GenSlot(n - 1).now == Present(run[i].log[n - 1].snap, true))
      && (forall g :: g in run[i].acked ==> g < n && run[i].acked[g] == run[i].log[g].snap)
      && (forall g: nat :: g < n ==>
            if after.Has(g) then after.GenSlot(g).now == Present(run[i].log[g].snap, true)
            else g in Reclaimed(after.journal.now) && g + 1 < n)
  {
    RunInv(level, run, i);
    CrashOfDisk(level, run[i].disk, run[i].log, run[i].acked.Keys, run[i].crashed, after);
  }

  lemma CrashOfDisk(level: Level, d: Disk, log: seq<Commit>, acked: set<nat>, crashed: bool, after: Disk)
    requires level.AtLeast(L2) && DiskInv(level, d, log, acked, crashed) && d.CrashOutcome(after)
    ensures var n := Length(after.head.now);
      && n <= |log| <= n + 1
      && (n > 0 ==> after.GenSlot(n - 1).now == Present(log[n - 1].snap, true))
      && (forall g :: g in acked ==> g < n)
      && (forall g: nat :: g < n ==>
            if after.Has(g) then after.GenSlot(g).now == Present(log[g].snap, true)
            else g in Reclaimed(after.journal.now) && g + 1 < n)
  {
    CrashKeeps(level, d, log, acked, crashed, after);
    CrashOfHead(d, log, acked, after);
    WholeDisk(level, after, log[..Length(after.head.now)], acked);
  }

  lemma CrashOfHead(d: Disk, log: seq<Commit>, acked: set<nat>, after: Disk)
    requires HeadDurable(d, log, acked) && d.CrashOutcome(after)
    ensures var n := Length(after.head.now); n <= |log| <= n + 1 && forall g :: g in acked ==> g < n
  {
    var e :| e in d.head.Outcomes() && EntrySurvives(e, after.head.now);
  }

  /** At levels that sync directories a disk holds a whole synced history. */
  lemma WholeDisk(level: Level, d: Disk, log: seq<Commit>, acked: set<nat>)
    requires level.AtLeast(L2) && DiskInv(level, d, log, acked, true)
    ensures |log| > 0 ==> d.GenSlot(|log| - 1).now == Present(log[|log| - 1].snap, true)
    ensures forall g: nat :: g < |log| ==>
      if d.Has(g) then d.GenSlot(g).now == Present(log[g].snap, true)
      else g in Reclaimed(d.journal.now) && g + 1 < |log|
  {
    forall g: nat | d.Has(g) ensures d.GenSlot(g).now.synced {
      assert d.GenSlot(g).now in d.GenSlot(g).Outcomes();
    }
  }

  lemma {:induction false} AcksStay(level: Level, run: seq<State>, i: nat, j: nat, g: nat)
    requires IsRun(level, run) && i <= j < |run| && g in run[i].acked
    ensures g in run[j].acked && run[j].acked[g] == run[i].acked[g]
    decreases j
  {
    if i < j {
      AcksStay(level, run, i, j - 1, g);
      AckStays(level, run, j - 1, g);
    }
  }

  lemma AckStays(level: Level, run: seq<State>, i: nat, g: nat)
    requires IsRun(level, run) && i + 1 < |run| && g in run[i].acked
    ensures g in run[i + 1].acked && run[i + 1].acked[g] == run[i].acked[g]
  {
    var step := NextStep(level, run, i);
    var s := run[i];
    StepHistory(level, s, step);
    if step.PubStep? {
      assert ActorInv(level, s, step.actor);
      PubHistory(level, s, step.actor);
    }
  }

  /** Once `publish` has returned, every later HEAD is at that generation or a newer one and the
      generation keeps its content while its file exists -- across any number of process deaths
      and, at L2 and above, of operating-system crashes. */
  lemma DurableAfterAck(level: Level, run: seq<State>, i: nat, j: nat, g: nat)
    requires IsRun(level, run) && i <= j < |run| && g in run[i].acked
    ensures g < Length(run[j].disk.head.now)
    ensures if run[j].disk.Has(g) then run[j].disk.GenSlot(g).now.val == run[i].acked[g]
            else g in Reclaimed(run[j].disk.journal.now) && g + 1 < Length(run[j].disk.head.now)
  {
    AcksStay(level, run, i, j, g);
    RunInv(level, run, j);
  }
}
