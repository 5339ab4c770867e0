/** The generational store as a step system.

  Publishers, collectors (`reclaim` and `compact`), readers and an unlocked `repair` interleave
  over one directory; every file operation is one step.  A process may die between any two steps
  and its lock dies with it.  At level L2 or above the whole machine may also crash, after which
  every directory entry holds any value it had since the last directory barrier.

  `log`, `acked` and `crashed` are history: the commits HEAD has named so far, the snapshots whose
  `publish` returned, and whether the operating system has ever crashed.
 */
module StoreMachine {
  import opened Options
  import opened StoreDisk
  import opened Retention

  datatype PubStage =
    | Staged | FileSynced | Locked | BaseChecked | GenRenamed | GenSynced
    | HeadStaged | HeadFileSynced | HeadRenamed | HeadSynced
  {
    function Rank(): nat {
      match this
      case Staged => 0
      case FileSynced => 1
      case Locked => 2
      case BaseChecked => 3
      case GenRenamed => 4
      case GenSynced => 5
      case HeadStaged => 6
      case HeadFileSynced => 7
      case HeadRenamed => 8
      case HeadSynced => 9
    }
  }

  datatype GcStage =
    | Waiting | Entered | HeadRead | Reaped | Listed | Deleting
    | JournalStaged | JournalFileSynced | JournalRenamed | JournalSynced | Unlinked
    | Sweeping | ManifestStaged | ManifestRenamed

  /** One `reclaim` or `compact` run: its schedule and what it has read so far. */
  datatype Gc = Gc(schedule: Schedule, compact: bool, head: nat, listed: map<nat, Pin>,
                   live: set<nat>, victims: seq<nat>)

  datatype Phase =
    | Publishing(base: Option<nat>, snap: Snapshot, pub: PubStage)
    | Collecting(gc: Gc, stage: GcStage)
    | Opening(target: Option<nat>)
    | Bound(gen: nat, viaHead: bool)
    | Pinned(gen: nat, pin: nat, viaHead: bool)
    | Holding(gen: nat, pin: nat, snap: Snapshot, committed: bool)

  datatype Actor = Actor(pid: nat, phase: Phase)

  /** A pin file.  `atHead` records whether its generation was HEAD when the pin was created. */
  datatype Pin = Pin(gen: nat, pid: nat, owner: nat, atHead: bool)

  datatype GenTmp = GenTmp(pid: nat, file: Entry<Snapshot>)

  /** Staging files: never read by any path except the rename that consumes them. */
  datatype Staging = Staging(gens: map<nat, GenTmp>, head: Entry<nat>,
                             journal: Entry<set<nat>>, manifest: bool)

  datatype Commit = Commit(snap: Snapshot, writer: nat)

  datatype State = State(
    disk: Disk, tmp: Staging, lock: Option<nat>,
    alive: set<nat>, dead: set<nat>, actors: map<nat, Actor>, nextActor: nat,
    pins: map<nat, Pin>, nextPin: nat,
    log: seq<Commit>, acked: map<nat, Snapshot>, crashed: bool)

  const INIT := State(EMPTY_DISK, Staging(map[], Absent, Absent, false), None,
                      {}, {}, map[], 0, map[], 0, [], map[], false)

  datatype StagingFile = GenStaging(writer: nat) | HeadStaging | JournalStaging | ManifestStaging

  datatype Step =
    | Spawn(pid: nat)
    | Kill(pid: nat)
    | OsCrash(after: Disk, left: Staging)
    | StartPublish(pid: nat, base: Option<nat>, snap: Snapshot)
    | StartCollect(pid: nat, schedule: Schedule, compact: bool)
    | StartOpen(pid: nat, target: Option<nat>)
    | Abort(actor: nat)
    | PubStep(actor: nat)
    | GcStep(actor: nat, choice: set<nat>)
    | OpenStep(actor: nat)
    | Repair(file: StagingFile)

  predicate HoldsLock(phase: Phase) {
    match phase
    case Publishing(_, _, stage) => stage.Rank() >= 2
    case Collecting(_, stage) => stage != Waiting
    case _ => false
  }

  /** `publish` rejects a candidate whose number does not follow its declared base. */
  predicate FollowsBase(base: Option<nat>, snap: Snapshot) {
    match base
    case None => snap.generation == 0
    case Some(b) => snap.generation == b + 1
  }

  predicate PinnerAlive(s: State, pin: nat) {
    pin in s.pins && s.pins[pin].pid in s.alive
  }

  /** What a listing of the directory shows: generation and process stand in the name of a pin file. */
  function ListedPins(s: State): map<nat, Pin> {
    map pin | pin in s.pins && Listable(s.pins[pin].gen) :: s.pins[pin]
  }

  function PinnedGens(gc: Gc): set<nat> {
    set pin | pin in gc.listed :: gc.listed[pin].gen
  }

  // -- Enabledness -----------------------------------------------------------------------------

  ghost predicate Enabled(level: Level, s: State, step: Step) {
    match step
    case Spawn(pid) => pid !in s.alive && pid !in s.dead
    case Kill(pid) => pid in s.alive
    case OsCrash(after, _) => level.AtLeast(L2) && s.disk.CrashOutcome(after)
    case StartPublish(pid, base, snap) => pid in s.alive && FollowsBase(base, snap)
    case StartCollect(pid, schedule, _) => pid in s.alive && ValidSchedule(schedule)
    case StartOpen(pid, _) => pid in s.alive
    case Abort(a) => a in s.actors
    case PubStep(a) =>
      a in s.actors && s.actors[a].phase.Publishing? && PubEnabled(level, s, a, s.actors[a].phase)
    case GcStep(a, choice) =>
      a in s.actors && s.actors[a].phase.Collecting? && GcEnabled(s, s.actors[a].phase, choice)
    case OpenStep(a) =>
      a in s.actors && OpenEnabled(s, s.actors[a].phase)
    case Repair(_) => true
  }

  predicate PubEnabled(level: Level, s: State, a: nat, phase: Phase)
    requires phase.Publishing?
  {
    match phase.pub
    case FileSynced => s.lock == None
    case Locked => HeadOf(s.disk.head.now) == phase.base
    case BaseChecked => a in s.tmp.gens
    case HeadFileSynced => s.tmp.head.Present?
    case HeadSynced => level.AtLeast(L3) ==> Verified(s, phase.snap)
    case _ => true
  }

  /** The L3 re-read of HEAD and of its generation before `publish` acknowledges. */
  predicate Verified(s: State, snap: Snapshot) {
    && HeadOf(s.disk.head.now) == Some(snap.generation)
    && s.disk.Has(snap.generation)
    && s.disk.GenSlot(snap.generation).now.val == snap
  }

  ghost predicate GcEnabled(s: State, phase: Phase, choice: set<nat>)
    requires phase.Collecting?
  {
    var gc := phase.gc;
    match phase.stage
    case Waiting => s.lock == None
    case HeadRead =>  // reap: listed pins of dead processes only (a reused pid may hide a dead pin)
      forall pin :: pin in choice ==> pin in ListedPins(s) && !PinnerAlive(s, pin)
    case Listed =>    // probe: every listed name of a live process protects its generation, released or not, and
                      // only listed names protect (a reused pid may keep a dead one's)
      && ValidSchedule(gc.schedule) && choice <= PinnedGens(gc)
      && forall pin :: pin in gc.listed && gc.listed[pin].pid in s.alive ==> gc.listed[pin].gen in choice
    case JournalFileSynced => s.tmp.journal.Present?
    case JournalSynced => gc.victims != []
    case Sweeping =>  // staging of dead owners only
      forall w :: w in choice && w in s.tmp.gens ==> s.tmp.gens[w].pid !in s.alive
    case ManifestStaged => s.tmp.manifest
    case _ => true
  }

  predicate OpenEnabled(s: State, phase: Phase) {
    match phase
    case Opening(None) => s.disk.head.now.Present?
    case Opening(_) => true
    case Bound(_, _) => true
    case Pinned(_, _, _) => true
    case Holding(_, _, _, _) => true
    case _ => false
  }

  // -- Steps -----------------------------------------------------------------------------------

  function Do(level: Level, s: State, step: Step): State
    requires Enabled(level, s, step)
  {
    match step
    case Spawn(pid) => s.(alive := s.alive + {pid})
    case Kill(pid) => DoKill(s, pid)
    case OsCrash(after, left) => DoOsCrash(s, after, left)
    case StartPublish(pid, base, snap) =>
      Start(s.(tmp := s.tmp.(gens := s.tmp.gens[s.nextActor := GenTmp(pid, Present(snap, false))])),
            pid, Publishing(base, snap, Staged))
    case StartCollect(pid, schedule, compact) =>
      Start(s, pid, Collecting(Gc(schedule, compact, 0, map[], {}, []), Waiting))
    case StartOpen(pid, target) => Start(s, pid, Opening(target))
    case Abort(a) => Finish(s, a)
    case PubStep(a) => DoPub(level, s, a)
    case GcStep(a, choice) => DoGc(level, s, a, choice)
    case OpenStep(a) => DoOpen(s, a)
    case Repair(file) => s.(tmp := Unstage(s.tmp, file))
  }

  function Start(s: State, pid: nat, phase: Phase): State {
    s.(actors := s.actors[s.nextActor := Actor(pid, phase)], nextActor := s.nextActor + 1)
  }

  function Move(s: State, a: nat, phase: Phase): State
    requires a in s.actors
  {
    s.(actors := s.actors[a := s.actors[a].(phase := phase)])
  }

  /** The call returns or raises: its lock is released. */
  function Finish(s: State, a: nat): State
    requires a in s.actors
  {
    s.(actors := s.actors - {a}, lock := if s.lock == Some(a) then None else s.lock)
  }

  function DoKill(s: State, pid: nat): State {
    s.(alive := s.alive - {pid}, dead := s.dead + {pid},
       actors := map a | a in s.actors && s.actors[a].pid != pid :: s.actors[a],
       lock := if s.lock.Some? && s.lock.value in s.actors && s.actors[s.lock.value].pid == pid
               then None else s.lock)
  }

  function DoOsCrash(s: State, after: Disk, left: Staging): State {
    var kept := if Length(after.head.now) <= |s.log| then Length(after.head.now) else |s.log|;
    s.(disk := after, tmp := left, lock := None, alive := {}, dead := s.dead + s.alive,
       actors := map[], log := s.log[..kept], crashed := true)
  }

  function Unstage(tmp: Staging, file: StagingFile): Staging {
    match file
    case GenStaging(w) => tmp.(gens := tmp.gens - {w})
    case HeadStaging => tmp.(head := Absent)
    case JournalStaging => tmp.(journal := Absent)
    case ManifestStaging => tmp.(manifest := false)
  }

  function SyncFile<T>(level: Level, e: Entry<T>): Entry<T> {
    if e.Present? then e.(synced := level.AtLeast(L1)) else e
  }

  function DoPub(level: Level, s: State, a: nat): State
    requires a in s.actors && s.actors[a].phase.Publishing?
    requires PubEnabled(level, s, a, s.actors[a].phase)
  {
    var p := s.actors[a].phase;
    var g := p.snap.generation;
    match p.pub
    case Staged =>
      var tmp := if a in s.tmp.gens
                 then s.tmp.(gens := s.tmp.gens[a := s.tmp.gens[a].(file := SyncFile(level, s.tmp.gens[a].file))])
                 else s.tmp;
      Move(s.(tmp := tmp), a, p.(pub := FileSynced))
    case FileSynced => Move(s.(lock := Some(a)), a, p.(pub := Locked))
    case Locked => Move(s, a, p.(pub := BaseChecked))
    case BaseChecked =>
      Move(s.(disk := s.disk.RenameGen(g, s.tmp.gens[a].file), tmp := s.tmp.(gens := s.tmp.gens - {a})),
           a, p.(pub := GenRenamed))
    case GenRenamed => Move(s.(disk := s.disk.DirsyncIf(level)), a, p.(pub := GenSynced))
    case GenSynced => Move(s.(tmp := s.tmp.(head := Present(g, false))), a, p.(pub := HeadStaged))
    case HeadStaged =>
      Move(s.(tmp := s.tmp.(head := SyncFile(level, s.tmp.head))), a, p.(pub := HeadFileSynced))
    case HeadFileSynced =>
      Move(s.(disk := s.disk.RenameHead(s.tmp.head), tmp := s.tmp.(head := Absent),
              log := s.log + [Commit(p.snap, a)]),
           a, p.(pub := HeadRenamed))
    case HeadRenamed => Move(s.(disk := s.disk.DirsyncIf(level)), a, p.(pub := HeadSynced))
    case HeadSynced => Finish(s.(acked := s.acked[g := p.snap]), a)
  }

  function DoGc(level: Level, s: State, a: nat, choice: set<nat>): State
    requires a in s.actors && s.actors[a].phase.Collecting?
    requires GcEnabled(s, s.actors[a].phase, choice)
  {
    var p := s.actors[a].phase;
    if Scanning(p.stage) then GcScan(s, a, p.gc, p.stage, choice)
    else if Finishing(p.stage) then GcSweep(level, s, a, p.gc, p.stage, choice)
    else GcDelete(level, s, a, p.gc, p.stage)
  }

  predicate Scanning(stage: GcStage) {
    stage.Waiting? || stage.Entered? || stage.HeadRead? || stage.Reaped? || stage.Listed?
  }

  predicate Finishing(stage: GcStage) {
    stage.Sweeping? || stage.ManifestStaged? || stage.ManifestRenamed?
  }

  /** Lock, read HEAD, reap, list and probe the pins, choose the victims. */
  function GcScan(s: State, a: nat, gc: Gc, stage: GcStage, choice: set<nat>): State
    requires stage == Listed ==> ValidSchedule(gc.schedule)
    requires a in s.actors && Scanning(stage)
  {
    match stage
    case Waiting => Move(s.(lock := Some(a)), a, Collecting(gc, Entered))
    case Entered =>
      if s.disk.head.now.Present?
      then Move(s, a, Collecting(gc.(head := s.disk.head.now.val), HeadRead))
      else Finish(s, a)
    case HeadRead =>
      if choice == {} then Move(s, a, Collecting(gc, Reaped)) else s.(pins := s.pins - choice)
    case Reaped => Move(s, a, Collecting(gc.(listed := ListedPins(s)), Listed))
    case Listed =>
      var victims := Victims(gc.schedule, s.disk.OnDisk(), choice, gc.head);
      Move(s, a, Collecting(gc.(live := choice, victims := victims), Deleting))
  }

  /** Record-first deletion of the next victim. */
  function GcDelete(level: Level, s: State, a: nat, gc: Gc, stage: GcStage): State
    requires a in s.actors && !Scanning(stage) && !Finishing(stage)
    requires stage == JournalSynced ==> gc.victims != []
  {
    match stage
    case Deleting =>
      if gc.victims != [] then
        var record := Reclaimed(s.disk.journal.now) + {gc.victims[0]};
        Move(s.(tmp := s.tmp.(journal := Present(record, false))), a, Collecting(gc, JournalStaged))
      else if gc.compact then Move(s, a, Collecting(gc, Sweeping))
      else Finish(s, a)
    case JournalStaged =>
      Move(s.(tmp := s.tmp.(journal := SyncFile(level, s.tmp.journal))), a, Collecting(gc, JournalFileSynced))
    case JournalFileSynced =>
      Move(s.(disk := s.disk.RenameJournal(s.tmp.journal), tmp := s.tmp.(journal := Absent)),
           a, Collecting(gc, JournalRenamed))
    case JournalRenamed => Move(s.(disk := s.disk.DirsyncIf(level)), a, Collecting(gc, JournalSynced))
    case JournalSynced =>
      Move(s.(disk := s.disk.UnlinkGen(gc.victims[0])), a, Collecting(gc.(victims := gc.victims[1..]), Unlinked))
    case Unlinked => Move(s.(disk := s.disk.DirsyncIf(level)), a, Collecting(gc, Deleting))
  }

  /** `compact` only: orphan staging, then the manifest. */
  function GcSweep(level: Level, s: State, a: nat, gc: Gc, stage: GcStage, choice: set<nat>): State
    requires a in s.actors && Finishing(stage)
  {
    match stage
    case Sweeping =>
      Move(s.(tmp := Staging(s.tmp.gens - choice, Absent, s.tmp.journal, true)), a, Collecting(gc, ManifestStaged))
    case ManifestStaged => Move(s.(tmp := s.tmp.(manifest := false)), a, Collecting(gc, ManifestRenamed))
    case ManifestRenamed => Finish(s.(disk := s.disk.DirsyncIf(level)), a)
  }

  function DoOpen(s: State, a: nat): State
    requires a in s.actors && OpenEnabled(s, s.actors[a].phase)
  {
    match s.actors[a].phase
    case Opening(Some(g)) => Move(s, a, Bound(g, false))
    case Opening(None) => Move(s, a, Bound(s.disk.head.now.val, true))
    case Bound(g, viaHead) =>
      var pin := Pin(g, s.actors[a].pid, a, HeadOf(s.disk.head.now) == Some(g));
      Move(s.(pins := s.pins[s.nextPin := pin], nextPin := s.nextPin + 1), a, Pinned(g, s.nextPin, viaHead))
    case Pinned(g, pin, viaHead) =>
      if s.disk.Has(g) then
        Move(s, a, Holding(g, pin, s.disk.GenSlot(g).now.val, g < Length(s.disk.head.now)))
      else if viaHead then Move(s.(pins := s.pins - {pin}), a, Opening(None))  // retry on the newer HEAD
      else Finish(s.(pins := s.pins - {pin}), a)
    case Holding(_, pin, _, _) => Finish(s.(pins := s.pins - {pin}), a)
  }

  // -- Runs ------------------------------------------------------------------------------------

  ghost predicate Next(level: Level, s: State, t: State) {
    exists step :: Enabled(level, s, step) && t == Do(level, s, step)
  }

  ghost predicate StepAt(level: Level, run: seq<State>, i: nat) {
    i + 1 < |run| && Next(level, run[i], run[i + 1])
  }

  ghost predicate IsRun(level: Level, run: seq<State>) {
    && |run| > 0
    && run[0] == INIT
    && forall i: nat :: i + 1 < |run| ==> StepAt(level, run, i)
  }
}
