/** What a pin protects: exactly which live pins a collector can still overrun, and how. */
module StorePins {
  import opened Collections
  import opened Options
  import opened StoreDisk
  import opened Retention
  import opened StoreMachine
  import opened StoreInvariant
  import opened StoreSteps
  import opened StoreTheorems
  import opened StoreScenarios
  import Compaction

  // -- Threats ---------------------------------------------------------------------------------------

  /** The generations of the listed pins of some processes. */
  function Protected(listed: map<nat, Pin>, pids: set<nat>): set<nat> {
    set q | q in listed && listed[q].pid in pids :: listed[q].gen
  }

  /** Collector `a` is past its listing, did not see `pin`, and the pinned generation is one of its victims - or can
      still become one, because the probe need respect only the listed pins of the collector's own and of the
      pinner's process: all others may die before it. */
  ghost predicate CanTake(s: State, a: nat, pin: nat)
    requires pin in s.pins
  {
    && a in s.actors && HasListed(s.actors[a].phase) && pin !in s.actors[a].phase.gc.listed
    && var gc, stage, g := s.actors[a].phase.gc, s.actors[a].phase.stage, s.pins[pin].gen;
       if stage.Listed? then
         ValidSchedule(gc.schedule) && g in Victims(gc.schedule, s.disk.OnDisk(), Respected(s, a, pin), gc.head)
       else !Finishing(stage) && g in gc.victims && (AwaitsJournal(stage) ==> s.tmp.journal.Present?)
  }

  function Respected(s: State, a: nat, pin: nat): set<nat>
    requires a in s.actors && s.actors[a].phase.Collecting? && pin in s.pins
  {
    Protected(s.actors[a].phase.gc.listed, {s.actors[a].pid, s.pins[pin].pid})
  }

  predicate AwaitsJournal(stage: GcStage) {
    stage.JournalStaged? || stage.JournalFileSynced?
  }

  /** A smaller set of protected generations never spares a victim. */
  lemma FewerLiveMoreVictims(schedule: Schedule, onDisk: set<nat>, small: set<nat>, large: set<nat>, head: nat, g: nat)
    requires ValidSchedule(schedule) && small <= large && g in Victims(schedule, onDisk, large, head)
    ensures g in Victims(schedule, onDisk, small, head)
  {
    if schedule.KeepRecent? {
      Compaction.KeepRecentExact(schedule.keep, onDisk, large, head, g);
      Compaction.KeepRecentExact(schedule.keep, onDisk, small, head, g);
      SubsetNotLarger(set h | h in onDisk && Listable(h) && h !in large && g < h < head,
                      set h | h in onDisk && Listable(h) && h !in small && g < h < head);
    }
  }

  // -- Where a threat comes from -----------------------------------------------------------------------

  lemma LockIsExclusive(level: Level, s: State, a: nat)
    requires Inv(level, s) && a in s.actors && HoldsLock(s.actors[a].phase)
    ensures s.lock == Some(a) && forall b :: b in s.actors && b != a ==> !HoldsLock(s.actors[b].phase)
  {
    forall b | b in s.actors ensures HoldsLock(s.actors[b].phase) ==> s.lock == Some(b) {
      assert ActorInv(level, s, b);
    }
  }

  /** While a collector holds the lock, nobody else changes the generation files or stages a journal. */
  lemma OthersLeaveDisk(level: Level, s: State, step: Step, a: nat)
    requires Inv(level, s) && Enabled(level, s, step) && !step.OsCrash?
    requires a in s.actors && HoldsLock(s.actors[a].phase)
    requires !(step.PubStep? && step.actor == a) && !(step.GcStep? && step.actor == a)
    ensures Do(level, s, step).disk == s.disk
    ensures Do(level, s, step).tmp.journal.Present? ==> Do(level, s, step).tmp.journal == s.tmp.journal
  {
    LockIsExclusive(level, s, a);
    ExclusiveDisk(level, s, step, a);
  }

  lemma ExclusiveDisk(level: Level, s: State, step: Step, a: nat)
    requires Enabled(level, s, step) && !step.OsCrash? && s.lock == Some(a)
    requires forall b :: b in s.actors && b != a ==> !HoldsLock(s.actors[b].phase)
    requires !(step.PubStep? && step.actor == a) && !(step.GcStep? && step.actor == a)
    ensures Do(level, s, step).disk == s.disk
    ensures Do(level, s, step).tmp.journal.Present? ==> Do(level, s, step).tmp.journal == s.tmp.journal
  {
    match step
    case PubStep(b) => PubWithoutLock(level, s, b);
    case OpenStep(b) => OpenLeavesStaging(s, b);
    case _ =>
  }

  lemma PubWithoutLock(level: Level, s: State, b: nat)
    requires b in s.actors && s.actors[b].phase.Publishing? && PubEnabled(level, s, b, s.actors[b].phase)
    requires !HoldsLock(s.actors[b].phase) && s.lock != None
    ensures DoPub(level, s, b).disk == s.disk && DoPub(level, s, b).tmp.journal == s.tmp.journal
  {
  }

  lemma OpenLeavesStaging(s: State, b: nat)
    requires b in s.actors && OpenEnabled(s, s.actors[b].phase)
    ensures DoOpen(s, b).disk == s.disk && DoOpen(s, b).tmp == s.tmp
  {
  }

  /** A threat seen after somebody else's step was there before it. */
  lemma ThreatFromOthers(level: Level, s: State, step: Step, a: nat, pin: nat)
    requires Inv(level, s) && Enabled(level, s, step) && !step.OsCrash?
    requires PinnerAlive(s, pin) && PinnerAlive(Do(level, s, step), pin)
    requires Do(level, s, step).pins[pin] == s.pins[pin] && CanTake(Do(level, s, step), a, pin)
    requires !(step.GcStep? && step.actor == a)
    ensures CanTake(s, a, pin)
  {
    OthersKeepPhase(level, s, step, a);
    OthersLeaveDisk(level, s, step, a);
  }

  /** A threat seen after the collector's own step was there before it. */
  lemma ThreatFromOwn(level: Level, s: State, a: nat, choice: set<nat>, pin: nat)
    requires Inv(level, s)
    requires a in s.actors && s.actors[a].phase.Collecting? && GcEnabled(s, s.actors[a].phase, choice)
    requires PinnerAlive(s, pin) && pin in DoGc(level, s, a, choice).pins
    requires DoGc(level, s, a, choice).pins[pin] == s.pins[pin] && CanTake(DoGc(level, s, a, choice), a, pin)
    ensures CanTake(s, a, pin)
  {
    assert ActorInv(level, s, a);
    GcListing(level, s, a, choice);
    var stage := s.actors[a].phase.stage;
    if stage.Reaped? {
      FreshListing(level, s, a, choice, pin);
    } else if stage.Listed? {
      ThreatFromProbe(level, s, a, choice, pin);
    } else if Finishing(stage) {
      SweepTakesNothing(level, s, a, choice, pin);
    } else {
      ThreatFromDeletion(level, s, a, choice, pin);
    }
  }

  /** A new listing shows every pin on a generation it could take. */
  lemma FreshListing(level: Level, s: State, a: nat, choice: set<nat>, pin: nat)
    requires a in s.actors && s.actors[a].phase.Collecting? && s.actors[a].phase.stage.Reaped?
    requires GcEnabled(s, s.actors[a].phase, choice) && PinnerAlive(s, pin)
    ensures pin in DoGc(level, s, a, choice).pins && !CanTake(DoGc(level, s, a, choice), a, pin)
  {
  }

  lemma ThreatFromProbe(level: Level, s: State, a: nat, choice: set<nat>, pin: nat)
    requires a in s.actors && s.actors[a].phase.Collecting? && s.actors[a].phase.stage.Listed?
    requires GcEnabled(s, s.actors[a].phase, choice) && PinnerAlive(s, pin) && pin !in s.actors[a].phase.gc.listed
    requires s.actors[a].pid in s.alive
    requires s.pins[pin].gen in Victims(s.actors[a].phase.gc.schedule, s.disk.OnDisk(), choice,
        s.actors[a].phase.gc.head)
    ensures CanTake(s, a, pin)
  {
    var gc := s.actors[a].phase.gc;
    assert Respected(s, a, pin) <= choice;
    FewerLiveMoreVictims(gc.schedule, s.disk.OnDisk(), Respected(s, a, pin), choice, gc.head, s.pins[pin].gen);
  }

  lemma SweepTakesNothing(level: Level, s: State, a: nat, choice: set<nat>, pin: nat)
    requires a in s.actors && s.actors[a].phase.Collecting? && Finishing(s.actors[a].phase.stage)
    requires GcEnabled(s, s.actors[a].phase, choice) && pin in DoGc(level, s, a, choice).pins
    ensures !CanTake(DoGc(level, s, a, choice), a, pin)
  {
  }

  lemma ThreatFromDeletion(level: Level, s: State, a: nat, choice: set<nat>, pin: nat)
    requires a in s.actors && s.actors[a].phase.Collecting?
    requires !Scanning(s.actors[a].phase.stage) && !Finishing(s.actors[a].phase.stage)
    requires GcEnabled(s, s.actors[a].phase, choice) && pin in s.pins && pin in DoGc(level, s, a, choice).pins
    requires DoGc(level, s, a, choice).pins[pin] == s.pins[pin] && CanTake(DoGc(level, s, a, choice), a, pin)
    requires pin !in s.actors[a].phase.gc.listed
    ensures CanTake(s, a, pin)
  {
  }

  // -- Safe for life -------------------------------------------------------------------------------------

  ghost predicate Threatened(s: State, pin: nat)
    requires pin in s.pins
  {
    exists a :: CanTake(s, a, pin)
  }

  /** No step takes the file from under an unthreatened live pin, and none brings up a threat. */
  lemma SafeStep(level: Level, s: State, step: Step, pin: nat)
    requires Inv(level, s) && Enabled(level, s, step)
    requires PinnerAlive(s, pin) && PinnerAlive(Do(level, s, step), pin)
    requires s.disk.Has(s.pins[pin].gen) && !Threatened(s, pin)
    ensures var t := Do(level, s, step);
      t.pins[pin] == s.pins[pin] && t.disk.Has(s.pins[pin].gen) && !Threatened(t, pin)
  {
    var t := Do(level, s, step);
    PinsOnlyAppear(level, s, step);
    if !t.disk.Has(s.pins[pin].gen) {
      var a := Remover(level, s, step, s.pins[pin].gen);
      TakenNow(level, s, a, pin);
      assert false;
    }
    forall a | CanTake(t, a, pin) ensures CanTake(s, a, pin) {
      if step.GcStep? && step.actor == a {
        ThreatFromOwn(level, s, a, step.choice, pin);
      } else {
        ThreatFromOthers(level, s, step, a, pin);
      }
    }
  }

  lemma TakenNow(level: Level, s: State, a: nat, pin: nat)
    requires a in s.actors && ActorInv(level, s, a) && PinnerAlive(s, pin)
    requires s.actors[a].phase.Collecting? && s.actors[a].phase.stage == JournalSynced
    requires s.actors[a].phase.gc.victims != [] && s.actors[a].phase.gc.victims[0] == s.pins[pin].gen
    ensures CanTake(s, a, pin)
  {
    var gc := s.actors[a].phase.gc;
    assert gc.victims[0] in gc.victims;
  }

  /** An unthreatened pin protects its file for as long as its process lives. */
  lemma {:induction false} SafeForLife(level: Level, run: seq<State>, i: nat, j: nat, pin: nat)
    requires IsRun(level, run) && i <= j < |run|
    requires forall k :: i <= k <= j ==> PinnerAlive(run[k], pin)
    requires PinnerAlive(run[i], pin) && run[i].disk.Has(run[i].pins[pin].gen) && !Threatened(run[i], pin)
    ensures pin in run[j].pins && run[j].pins[pin] == run[i].pins[pin] && run[j].disk.Has(run[i].pins[pin].gen)
    ensures !Threatened(run[j], pin)
    decreases j
  {
    if i < j {
      SafeForLife(level, run, i, j - 1, pin);
      SafeOnce(level, run, j - 1, pin);
    }
  }

  lemma SafeOnce(level: Level, run: seq<State>, i: nat, pin: nat)
    requires IsRun(level, run) && i + 1 < |run| && PinnerAlive(run[i], pin) && PinnerAlive(run[i + 1], pin)
    requires run[i].disk.Has(run[i].pins[pin].gen) && !Threatened(run[i], pin)
    ensures run[i + 1].pins[pin] == run[i].pins[pin] && run[i + 1].disk.Has(run[i].pins[pin].gen)
    ensures !Threatened(run[i + 1], pin)
  {
    var step := NextStep(level, run, i);
    SafeStep(level, run[i], step, pin);
  }

  // -- Carrying a threat out -------------------------------------------------------------------------------

  /** `longer` continues `run`, and the pin's process lives through all of the continuation. */
  ghost predicate LivesThrough(level: Level, run: seq<State>, longer: seq<State>, pin: nat) {
    Continues(level, run, longer) && forall i: nat :: |run| <= i + 1 && i < |longer| ==> PinnerAlive(longer[i], pin)
  }

  /** The continuation ends with the pin still there and its generation gone. */
  ghost predicate Overruns(level: Level, run: seq<State>, longer: seq<State>, pin: nat) {
    && LivesThrough(level, run, longer, pin) && pin in Last(run).pins
    && !Last(longer).disk.Has(Last(run).pins[pin].gen)
  }

  lemma Step(level: Level, run: seq<State>, sofar: seq<State>, pin: nat, step: Step) returns (longer: seq<State>)
    requires LivesThrough(level, run, sofar, pin) && Enabled(level, Last(sofar), step)
    requires PinnerAlive(Do(level, Last(sofar), step), pin)
    ensures LivesThrough(level, run, longer, pin) && Last(longer) == Do(level, Last(sofar), step)
  {
    longer := Extend(level, sofar, step);
    assert run <= longer;
  }

  // Killing what the collector need not respect

  /** The live processes other than the collector's and the pinner's. */
  function Bystanders(s: State, a: nat, pin: nat): set<nat>
    requires a in s.actors && s.actors[a].phase.Collecting? && pin in s.pins
  {
    set pid | pid in s.alive && pid != s.actors[a].pid && pid != s.pins[pin].pid
  }

  /** The collector, the disk and the pin are as they were. */
  ghost predicate Spared(s: State, t: State, a: nat, pin: nat) {
    && a in s.actors && a in t.actors && t.actors[a] == s.actors[a]
    && t.disk == s.disk && PinnerAlive(s, pin) && PinnerAlive(t, pin) && t.pins[pin] == s.pins[pin]
  }

  lemma KillSpares(s: State, a: nat, pin: nat, pid: nat)
    requires a in s.actors && s.actors[a].phase.Collecting? && PinnerAlive(s, pin) && pid in Bystanders(s, a, pin)
    ensures Spared(s, DoKill(s, pid), a, pin)
    ensures Bystanders(DoKill(s, pid), a, pin) == Bystanders(s, a, pin) - {pid}
  {
  }

  /** Every process but the two dies. */
  lemma {:induction false} KillAll(level: Level, run: seq<State>, sofar: seq<State>, a: nat, pin: nat)
    returns (longer: seq<State>)
    requires LivesThrough(level, run, sofar, pin) && PinnerAlive(Last(sofar), pin)
    requires a in Last(sofar).actors && Last(sofar).actors[a].phase.Collecting?
    ensures LivesThrough(level, run, longer, pin) && Spared(Last(sofar), Last(longer), a, pin)
    ensures Bystanders(Last(longer), a, pin) == {}
    decreases |Bystanders(Last(sofar), a, pin)|
  {
    var s := Last(sofar);
    if pid :| pid in Bystanders(s, a, pin) {
      KillSpares(s, a, pin, pid);
      var next := Step(level, run, sofar, pin, Kill(pid));
      longer := KillAll(level, run, next, a, pin);
    } else {
      longer := sofar;
    }
  }

  // Probing, then deleting down to the threatened generation

  function StageLeft(stage: GcStage): nat {
    match stage
    case Unlinked => 6
    case Deleting => 5
    case JournalStaged => 4
    case JournalFileSynced => 3
    case JournalRenamed => 2
    case _ => 1
  }

  /** A probe that finds nobody else alive protects no more than it must. */
  lemma ProbeTakes(level: Level, s: State, a: nat, pin: nat)
    requires PinnerAlive(s, pin) && CanTake(s, a, pin) && s.actors[a].phase.stage.Listed?
    requires Bystanders(s, a, pin) == {}
    ensures var choice := Respected(s, a, pin);
      && GcEnabled(s, s.actors[a].phase, choice)
      && PinnerAlive(DoGc(level, s, a, choice), pin) && DoGc(level, s, a, choice).pins[pin] == s.pins[pin]
      && CanTake(DoGc(level, s, a, choice), a, pin) && !DoGc(level, s, a, choice).actors[a].phase.stage.Listed?
  {
    assert forall pid :: pid in s.alive ==> pid in {s.actors[a].pid, s.pins[pin].pid} || pid in Bystanders(s, a, pin);
  }

  /** One step of a deletion that threatens the pin: the file is gone, or the threat is one step nearer. */
  lemma DeletionNears(level: Level, s: State, a: nat, pin: nat)
    requires PinnerAlive(s, pin) && CanTake(s, a, pin) && !s.actors[a].phase.stage.Listed?
    ensures GcEnabled(s, s.actors[a].phase, {})
    ensures var t, gc, stage := DoGc(level, s, a, {}), s.actors[a].phase.gc, s.actors[a].phase.stage;
      && PinnerAlive(t, pin) && t.pins[pin] == s.pins[pin]
      && (!t.disk.Has(s.pins[pin].gen) ||
          (CanTake(t, a, pin) && !t.actors[a].phase.stage.Listed?
           && 6 * |t.actors[a].phase.gc.victims| + StageLeft(t.actors[a].phase.stage)
              < 6 * |gc.victims| + StageLeft(stage)))
  {
    var stage := s.actors[a].phase.stage;
    if stage.JournalSynced? {
      UnlinkNears(level, s, a, pin);
    } else {
      JournalNears(level, s, a, pin);
    }
  }

  lemma UnlinkNears(level: Level, s: State, a: nat, pin: nat)
    requires PinnerAlive(s, pin) && CanTake(s, a, pin) && s.actors[a].phase.stage.JournalSynced?
    ensures GcEnabled(s, s.actors[a].phase, {})
    ensures var t, gc := DoGc(level, s, a, {}), s.actors[a].phase.gc;
      && PinnerAlive(t, pin) && t.pins[pin] == s.pins[pin]
      && (!t.disk.Has(s.pins[pin].gen) ||
          (CanTake(t, a, pin) && t.actors[a].phase.stage.Unlinked? &&
              |t.actors[a].phase.gc.victims| == |gc.victims| - 1))
  {
  }

  lemma JournalNears(level: Level, s: State, a: nat, pin: nat)
    requires PinnerAlive(s, pin) && CanTake(s, a, pin)
    requires !s.actors[a].phase.stage.Listed? && !s.actors[a].phase.stage.JournalSynced?
    ensures GcEnabled(s, s.actors[a].phase, {})
    ensures var t, gc, stage := DoGc(level, s, a, {}), s.actors[a].phase.gc, s.actors[a].phase.stage;
      && PinnerAlive(t, pin) && t.pins[pin] == s.pins[pin] && CanTake(t, a, pin)
      && !t.actors[a].phase.stage.Listed? && t.actors[a].phase.gc.victims == gc.victims
      && StageLeft(t.actors[a].phase.stage) < StageLeft(stage)
  {
    var stage := s.actors[a].phase.stage;
    if stage.Deleting? || stage.Unlinked? { RoundNears(level, s, a, pin); } else { RecordNears(level, s, a, pin); }
  }

  lemma RoundNears(level: Level, s: State, a: nat, pin: nat)
    requires PinnerAlive(s, pin) && CanTake(s, a, pin)
    requires s.actors[a].phase.stage.Deleting? || s.actors[a].phase.stage.Unlinked?
    ensures GcEnabled(s, s.actors[a].phase, {})
    ensures var t, gc, stage := DoGc(level, s, a, {}), s.actors[a].phase.gc, s.actors[a].phase.stage;
      && PinnerAlive(t, pin) && t.pins[pin] == s.pins[pin] && CanTake(t, a, pin)
      && !t.actors[a].phase.stage.Listed? && t.actors[a].phase.gc.victims == gc.victims
      && StageLeft(t.actors[a].phase.stage) < StageLeft(stage)
  {
  }

  lemma RecordNears(level: Level, s: State, a: nat, pin: nat)
    requires PinnerAlive(s, pin) && CanTake(s, a, pin)
    requires AwaitsJournal(s.actors[a].phase.stage) || s.actors[a].phase.stage.JournalRenamed?
    ensures GcEnabled(s, s.actors[a].phase, {})
    ensures var t, gc, stage := DoGc(level, s, a, {}), s.actors[a].phase.gc, s.actors[a].phase.stage;
      && PinnerAlive(t, pin) && t.pins[pin] == s.pins[pin] && CanTake(t, a, pin)
      && !t.actors[a].phase.stage.Listed? && t.actors[a].phase.gc.victims == gc.victims
      && StageLeft(t.actors[a].phase.stage) < StageLeft(stage)
  {
    var p := s.actors[a].phase;
    assert DoGc(level, s, a, {}) == GcDelete(level, s, a, p.gc, p.stage);
  }

  /** A collector whose victims include the generation can go on until it is gone. */
  lemma {:induction false} DeleteDown(level: Level, run: seq<State>, sofar: seq<State>, a: nat, pin: nat)
    returns (longer: seq<State>)
    requires LivesThrough(level, run, sofar, pin) && PinnerAlive(Last(sofar), pin)
    requires CanTake(Last(sofar), a, pin) && !Last(sofar).actors[a].phase.stage.Listed?
    ensures LivesThrough(level, run, longer, pin) && !Last(longer).disk.Has(Last(sofar).pins[pin].gen)
    decreases 6 * |Last(sofar).actors[a].phase.gc.victims| + StageLeft(Last(sofar).actors[a].phase.stage)
  {
    var s := Last(sofar);
    RunInv(level, sofar, |sofar| - 1);
    DeletionNears(level, s, a, pin);
    longer := Step(level, run, sofar, pin, GcStep(a, {}));
    if Last(longer).disk.Has(s.pins[pin].gen) {
      longer := DeleteDown(level, run, longer, a, pin);
    }
  }

  /** A threat can be carried out while the pinner lives. */
  lemma ThreatIsReal(level: Level, run: seq<State>, a: nat, pin: nat) returns (longer: seq<State>)
    requires IsRun(level, run) && PinnerAlive(Last(run), pin) && CanTake(Last(run), a, pin)
    ensures Overruns(level, run, longer, pin)
  {
    var s := Last(run);
    longer := run;
    if s.actors[a].phase.stage.Listed? {
      longer := KillAll(level, run, run, a, pin);
      var t := Last(longer);
      ProbeTakes(level, t, a, pin);
      longer := Step(level, run, longer, pin, GcStep(a, Respected(t, a, pin)));
    }
    longer := DeleteDown(level, run, longer, a, pin);
  }

  // -- The exact protection of a pin --------------------------------------------------------------------------

  /** A live pin on a present generation can be overrun in some continuation through which its process lives
      exactly when some collector past its listing did not see it and has, or can still choose, its generation
      as a victim. */
  lemma OverrunIffThreatened(level: Level, run: seq<State>, pin: nat)
    requires IsRun(level, run) && PinnerAlive(Last(run), pin) && Last(run).disk.Has(Last(run).pins[pin].gen)
    ensures (exists longer :: Overruns(level, run, longer, pin)) <==> Threatened(Last(run), pin)
  {
    if Threatened(Last(run), pin) {
      var a :| CanTake(Last(run), a, pin);
      var longer := ThreatIsReal(level, run, a, pin);
    } else {
      forall longer ensures !Overruns(level, run, longer, pin) {
        if Overruns(level, run, longer, pin) {
          assert Last(run) == longer[|run| - 1];
          SafeForLife(level, longer, |run| - 1, |longer| - 1, pin);
        }
      }
    }
  }

  /** A pin made at HEAD is never threatened. */
  lemma HeadPinIsSafe(level: Level, run: seq<State>, pin: nat)
    requires IsRun(level, run) && PinnerAlive(Last(run), pin) && Last(run).pins[pin].atHead
    ensures !Threatened(Last(run), pin)
  {
    RunInv(level, run, |run| - 1);
    var s := Last(run);
    forall a | a in s.actors ensures !CanTake(s, a, pin) {
      assert ActorInv(level, s, a);
    }
  }

  /** While no collector is past its listing, a pin on a present generation is safe for the life of its process. */
  lemma PinBeforeListingIsSafe(level: Level, run: seq<State>, longer: seq<State>, pin: nat)
    requires IsRun(level, run) && PinnerAlive(Last(run), pin) && Last(run).disk.Has(Last(run).pins[pin].gen)
    requires forall a :: a in Last(run).actors ==> !HasListed(Last(run).actors[a].phase)
    requires LivesThrough(level, run, longer, pin)
    ensures Last(longer).disk.Has(Last(run).pins[pin].gen)
  {
    assert Last(run) == longer[|run| - 1];
    SafeForLife(level, longer, |run| - 1, |longer| - 1, pin);
  }

  /** Before its probe a collector respects a listed pin even after it was released: a later pin of the same process
      on the same generation is safe. */
  lemma EarlierPinProtects(level: Level, run: seq<State>, longer: seq<State>, a: nat, pin: nat, q: nat)
    requires IsRun(level, run) && PinnerAlive(Last(run), pin) && Last(run).disk.Has(Last(run).pins[pin].gen)
    requires a in Last(run).actors
    requires Last(run).actors[a].phase.Collecting? && Last(run).actors[a].phase.stage == Listed
    requires var listed := Last(run).actors[a].phase.gc.listed;
      q in listed && listed[q].pid == Last(run).pins[pin].pid && listed[q].gen == Last(run).pins[pin].gen
    requires LivesThrough(level, run, longer, pin)
    ensures Last(longer).disk.Has(Last(run).pins[pin].gen)
  {
    var s := Last(run);
    RunInv(level, run, |run| - 1);
    LockIsExclusive(level, s, a);
    RespectedIsSpared(s, a, pin, q);
    assert !Threatened(s, pin);
    assert s == longer[|run| - 1];
    SafeForLife(level, longer, |run| - 1, |longer| - 1, pin);
  }

  lemma RespectedIsSpared(s: State, a: nat, pin: nat, q: nat)
    requires a in s.actors && s.actors[a].phase.Collecting? && s.actors[a].phase.stage == Listed && pin in s.pins
    requires forall b :: b in s.actors && b != a ==> !HoldsLock(s.actors[b].phase)
    requires var listed := s.actors[a].phase.gc.listed;
      q in listed && listed[q].pid == s.pins[pin].pid && listed[q].gen == s.pins[pin].gen
    ensures !Threatened(s, pin)
  {
    assert s.pins[pin].gen in Respected(s, a, pin);
    assert forall b :: b in s.actors && HasListed(s.actors[b].phase) ==> HoldsLock(s.actors[b].phase);
  }

  // -- A run that overruns a pin -------------------------------------------------------------------------------

  /** Two generations are published, a prune run lists the pins, generation 0 is opened and loaded, and the run
      then deletes it under the open handle. */
  lemma OpenHandleOverrun(level: Level) returns (run: seq<State>, longer: seq<State>, pin: nat)
    ensures IsRun(level, run) && pin in Last(run).pins && Last(run).pins[pin].gen == 0 && Last(run).disk.Has(0)
    ensures exists a ::
      a in Last(run).actors && Last(run).actors[a].phase.Holding? && Last(run).actors[a].phase.pin == pin
    ensures Overruns(level, run, longer, pin)
  {
    run := PublishMany(level, 2, "");
    HeadNamesAWholeHistory(level, run, |run| - 1);
    var c;
    run, c := PruneLists(level, run);
    var s := Last(run);
    pin := s.nextPin;
    run := Open(level, run, 0, 0);
    assert s.nextActor in Last(run).actors && Last(run).actors[s.nextActor].phase.Holding?;
    RunInv(level, run, |run| - 1);
    EarlyThreat(Last(run), c, pin);
    longer := ThreatIsReal(level, run, c, pin);
  }

  lemma EarlyThreat(s: State, c: nat, pin: nat)
    requires c in s.actors && s.actors[c].phase == Collecting(Gc(Prune, false, 1, map[], {}, []), Listed)
    requires pin in s.pins && s.pins[pin].gen == 0 && s.disk.Has(0)
    ensures CanTake(s, c, pin)
  {
    assert Respected(s, c, pin) == {};
    assert 0 in s.disk.OnDisk();
    assert 0 in Candidates(Prune, s.disk.OnDisk(), {}, 1);
  }

  /** A prune run on a quiet store, up to its listing. */
  lemma PruneLists(level: Level, run: seq<State>) returns (longer: seq<State>, c: nat)
    requires IsRun(level, run) && Quiet(Last(run), 2) && HeadOf(Last(run).disk.head.now) == Some(1)
    ensures Continues(level, run, longer)
    ensures var s, t := Last(run), Last(longer);
      && c in t.actors && c < t.nextActor
      && t.actors[c] == Actor(0, Collecting(Gc(Prune, false, 1, map[], {}, []), Listed))
      && t.disk == s.disk && 0 in t.alive && t.pins == map[]
  {
    c := Last(run).nextActor;
    longer := Extend(level, run, StartCollect(0, Prune, false));
    longer := Extend(level, longer, GcStep(c, {}));
    longer := Extend(level, longer, GcStep(c, {}));
    longer := Extend(level, longer, GcStep(c, {}));
    assert ListedPins(Last(longer)) == map[];
    longer := Extend(level, longer, GcStep(c, {}));
  }
}
