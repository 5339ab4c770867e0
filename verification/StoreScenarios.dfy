/** Building runs of the store: one whole publication at a time. */
module StoreScenarios {
  import opened Options
  import opened StoreDisk
  import opened StoreMachine
  import opened StoreInvariant
  import opened StoreSteps
  import opened StoreTheorems

  ghost predicate Continues(level: Level, run: seq<State>, longer: seq<State>) {
    IsRun(level, longer) && run != [] && run <= longer
  }

  function Last(run: seq<State>): State
    requires run != []
  {
    run[|run| - 1]
  }

  lemma Extend(level: Level, run: seq<State>, step: Step) returns (longer: seq<State>)
    requires IsRun(level, run) && Enabled(level, Last(run), step)
    ensures Continues(level, run, longer) && |longer| == |run| + 1
    ensures Last(longer) == Do(level, Last(run), step)
  {
    longer := run + [Do(level, Last(run), step)];
    forall i: nat | i + 1 < |longer| ensures StepAt(level, longer, i) {
      if i + 1 < |run| {
        assert StepAt(level, run, i);
      } else {
        assert longer[i + 1] == Do(level, longer[i], step);
      }
    }
  }

  // -- One publication -----------------------------------------------------------------------------

  function Following(stage: PubStage): PubStage
    requires stage != HeadSynced
  {
    match stage
    case Staged => FileSynced
    case FileSynced => Locked
    case Locked => BaseChecked
    case BaseChecked => GenRenamed
    case GenRenamed => GenSynced
    case GenSynced => HeadStaged
    case HeadStaged => HeadFileSynced
    case HeadFileSynced => HeadRenamed
    case HeadRenamed => HeadSynced
  }

  /** `t` is `s` with one more call, the publication of `snap` by process `pid`, at `stage`. */
  ghost predicate During(s: State, t: State, pid: nat, snap: Snapshot, stage: PubStage) {
    var a, n, r := s.nextActor, |s.log|, stage.Rank();
    && snap.generation == n
    && t.actors == s.actors[a := Actor(pid, Publishing(HeadOf(s.disk.head.now), snap, stage))]
    && t.lock == (if r >= 2 then Some(a) else None)
    && SameReaders(s, t) && t.nextActor == a + 1 && t.acked == s.acked
    && t.log == (if r >= 8 then s.log + [Commit(snap, a)] else s.log)
    && (r < 4 ==> a in t.tmp.gens && t.tmp.gens[a].file.Present? && t.tmp.gens[a].file.val == snap)
    && (6 <= r < 8 ==> t.tmp.head.Present? && t.tmp.head.val == n)
    && HeadOf(t.disk.head.now) == (if r >= 8 then Some(n) else HeadOf(s.disk.head.now))
    && t.disk.journal.now == s.disk.journal.now
    && OthersPresent(s, t, n)
    && t.tmp.gens - {a} == s.tmp.gens - {a} && (r >= 4 ==> a !in t.tmp.gens) && (r >= 8 ==> t.tmp.head == Absent)
    && (if r >= 4 then t.disk.Has(n) && t.disk.GenSlot(n).now.val == snap
        else t.disk.GenSlot(n).now == s.disk.GenSlot(n).now)
  }

  ghost predicate SameReaders(s: State, t: State) {
    t.alive == s.alive && t.dead == s.dead && t.pins == s.pins && t.nextPin == s.nextPin && t.crashed == s.crashed
  }

  ghost predicate OthersPresent(s: State, t: State, n: nat) {
    forall g: nat :: g != n ==> t.disk.GenSlot(g).now == s.disk.GenSlot(g).now
  }

  lemma PublishBegins(level: Level, s: State, pid: nat, snap: Snapshot)
    requires Inv(level, s) && s.lock == None && pid in s.alive && snap.generation == |s.log|
    ensures Enabled(level, s, StartPublish(pid, HeadOf(s.disk.head.now), snap))
    ensures During(s, Do(level, s, StartPublish(pid, HeadOf(s.disk.head.now), snap)), pid, snap, Staged)
  {
  }

  lemma PublishGoesOn(level: Level, s: State, t: State, pid: nat, snap: Snapshot, stage: PubStage)
    requires During(s, t, pid, snap, stage) && stage != HeadSynced
    ensures PubEnabled(level, t, s.nextActor, t.actors[s.nextActor].phase)
    ensures During(s, DoPub(level, t, s.nextActor), pid, snap, Following(stage))
  {
    DirsyncSettles(t.disk);
    if stage.Rank() < 3 {
      BeforeRename(level, s, t, pid, snap, stage);
    } else if stage.Rank() < 6 {
      AroundRename(level, s, t, pid, snap, stage);
    } else {
      AroundHead(level, s, t, pid, snap, stage);
    }
  }

  lemma BeforeRename(level: Level, s: State, t: State, pid: nat, snap: Snapshot, stage: PubStage)
    requires During(s, t, pid, snap, stage) && stage.Rank() < 3
    ensures PubEnabled(level, t, s.nextActor, t.actors[s.nextActor].phase)
    ensures During(s, DoPub(level, t, s.nextActor), pid, snap, Following(stage))
  {
  }

  lemma AroundRename(level: Level, s: State, t: State, pid: nat, snap: Snapshot, stage: PubStage)
    requires During(s, t, pid, snap, stage) && 3 <= stage.Rank() < 6
    ensures PubEnabled(level, t, s.nextActor, t.actors[s.nextActor].phase)
    ensures During(s, DoPub(level, t, s.nextActor), pid, snap, Following(stage))
  {
    DirsyncSettles(t.disk);
  }

  lemma AroundHead(level: Level, s: State, t: State, pid: nat, snap: Snapshot, stage: PubStage)
    requires During(s, t, pid, snap, stage) && 6 <= stage.Rank() < 9
    ensures PubEnabled(level, t, s.nextActor, t.actors[s.nextActor].phase)
    ensures During(s, DoPub(level, t, s.nextActor), pid, snap, Following(stage))
  {
    DirsyncSettles(t.disk);
  }

  lemma StartOne(level: Level, run: seq<State>, pid: nat, snap: Snapshot) returns (longer: seq<State>)
    requires IsRun(level, run) && Last(run).lock == None && pid in Last(run).alive && snap.generation == |Last(run).log|
    ensures Continues(level, run, longer) && During(Last(run), Last(longer), pid, snap, Staged)
    ensures Last(longer).disk == Last(run).disk
  {
    var s := Last(run);
    RunInv(level, run, |run| - 1);
    PublishBegins(level, s, pid, snap);
    longer := Extend(level, run, StartPublish(pid, HeadOf(s.disk.head.now), snap));
  }

  lemma PublishStep(level: Level, run: seq<State>, s: State, pid: nat, snap: Snapshot, stage: PubStage)
    returns (longer: seq<State>)
    requires IsRun(level, run) && During(s, Last(run), pid, snap, stage) && stage != HeadSynced
    ensures Continues(level, run, longer) && During(s, Last(longer), pid, snap, Following(stage))
  {
    PublishGoesOn(level, s, Last(run), pid, snap, stage);
    longer := Extend(level, run, PubStep(s.nextActor));
  }

  /** Carry a publication from one stage to a later one. */
  lemma {:induction false} PublishUpTo(level: Level, run: seq<State>, s: State, pid: nat, snap: Snapshot,
                                       stage: PubStage, until: PubStage)
    returns (longer: seq<State>)
    requires IsRun(level, run) && During(s, Last(run), pid, snap, stage) && stage.Rank() <= until.Rank()
    ensures Continues(level, run, longer) && During(s, Last(longer), pid, snap, until)
    decreases until.Rank() - stage.Rank()
  {
    if stage == until {
      longer := run;
    } else {
      var next := PublishStep(level, run, s, pid, snap, stage);
      longer := PublishUpTo(level, next, s, pid, snap, Following(stage), until);
    }
  }

  /** `t` is `s` after one whole publication. */
  ghost predicate PublishedOne(s: State, t: State, snap: Snapshot) {
    && t.actors == s.actors && t.lock == None && SameReaders(s, t) && t.nextActor == s.nextActor + 1
    && t.log == s.log + [Commit(snap, s.nextActor)] && t.acked == s.acked[|s.log| := snap]
    && HeadOf(t.disk.head.now) == Some(|s.log|) && t.disk.journal.now == s.disk.journal.now
    && OthersPresent(s, t, |s.log|)
    && t.disk.Has(|s.log|) && t.disk.GenSlot(|s.log|).now.val == snap
    && t.tmp.gens == s.tmp.gens - {s.nextActor} && t.tmp.head == Absent
  }

  lemma PublishEnds(level: Level, s: State, t: State, pid: nat, snap: Snapshot)
    requires During(s, t, pid, snap, HeadSynced) && forall a :: a in s.actors ==> a < s.nextActor
    ensures PubEnabled(level, t, s.nextActor, t.actors[s.nextActor].phase)
    ensures PublishedOne(s, DoPub(level, t, s.nextActor), snap)
  {
    assert s.actors[s.nextActor := t.actors[s.nextActor]] - {s.nextActor} == s.actors;
  }

  /** Any reachable state with a free lock and a live process extends by one publication. */
  lemma Publish(level: Level, run: seq<State>, pid: nat, body: string) returns (longer: seq<State>)
    requires IsRun(level, run) && Last(run).lock == None && pid in Last(run).alive
    ensures Continues(level, run, longer)
    ensures PublishedOne(Last(run), Last(longer), Snapshot(|Last(run).log|, body))
  {
    var s, snap := Last(run), Snapshot(|Last(run).log|, body);
    var r := StartOne(level, run, pid, snap);
    r := PublishUpTo(level, r, s, pid, snap, Staged, HeadSynced);
    CallsAreNumbered(level, run);
    PublishEnds(level, s, Last(r), pid, snap);
    longer := Extend(level, r, PubStep(s.nextActor));
  }

  lemma CallsAreNumbered(level: Level, run: seq<State>)
    requires IsRun(level, run)
    ensures forall a :: a in Last(run).actors ==> a < Last(run).nextActor
  {
    RunInv(level, run, |run| - 1);
    assert forall a :: a in Last(run).actors ==> ActorInv(level, Last(run), a);
  }

  // -- Many publications ---------------------------------------------------------------------------

  /** A store that one process has published into `n` times. */
  ghost predicate Quiet(s: State, n: nat) {
    s.lock == None && s.alive == {0} && s.dead == {} && s.actors == map[] && s.pins == map[] && !s.crashed &&
        |s.log| == n
    && Reclaimed(s.disk.journal.now) == {}
  }

  /** HEAD can reach every number. */
  lemma {:induction false} PublishMany(level: Level, n: nat, body: string) returns (run: seq<State>)
    ensures IsRun(level, run) && Quiet(Last(run), n)
  {
    if n == 0 {
      assert IsRun(level, [INIT]);
      run := Extend(level, [INIT], Spawn(0));
    } else {
      run := PublishMany(level, n - 1, body);
      run := Publish(level, run, 0, body);
    }
  }

  // -- Interrupted publications ----------------------------------------------------------------------

  /** Killing a publisher releases its lock and leaves the disk as it was. */
  lemma KillPublisher(level: Level, run: seq<State>, s: State, pid: nat, snap: Snapshot, stage: PubStage)
    returns (longer: seq<State>)
    requires IsRun(level, run) && During(s, Last(run), pid, snap, stage) && pid in s.alive
    ensures Continues(level, run, longer)
    ensures var t, u := Last(run), Last(longer);
      && u.disk == t.disk && u.log == t.log && u.lock == None && u.pins == t.pins && u.nextPin == t.nextPin
      && u.crashed == t.crashed
      && u.alive == t.alive - {pid} && u.dead == t.dead + {pid}
      && u.actors == map a | a in t.actors && t.actors[a].pid != pid :: t.actors[a]
  {
    assert Last(run).actors[s.nextActor].pid == pid;
    longer := Extend(level, run, Kill(pid));
  }

  /** A publisher that dies right after renaming its generation file into place: that file is all that changed. */
  lemma InterruptedPublish(level: Level, run: seq<State>, pid: nat, snap: Snapshot)
    returns (longer: seq<State>, file: Entry<Snapshot>)
    requires IsRun(level, run) && Last(run).lock == None && pid in Last(run).alive && snap.generation == |Last(run).log|
    ensures Continues(level, run, longer)
    ensures var s, u := Last(run), Last(longer);
      && file.Present? && file.val == snap && u.disk == s.disk.RenameGen(|s.log|, file)
      && u.log == s.log && u.lock == None && u.pins == s.pins && u.nextPin == s.nextPin && u.crashed == s.crashed
      && u.alive == s.alive - {pid} && u.dead == s.dead + {pid}
  {
    var s := Last(run);
    var r := StartOne(level, run, pid, snap);
    r := BeforeDisk(level, r, s, pid, snap, Staged);
    r := BeforeDisk(level, r, s, pid, snap, FileSynced);
    r := BeforeDisk(level, r, s, pid, snap, Locked);
    r, file := RenameOne(level, r, s, pid, snap);
    longer := KillPublisher(level, r, s, pid, snap, GenRenamed);
  }

  lemma RenameOne(level: Level, run: seq<State>, s: State, pid: nat, snap: Snapshot)
    returns (longer: seq<State>, file: Entry<Snapshot>)
    requires IsRun(level, run) && During(s, Last(run), pid, snap, BaseChecked) && Last(run).disk == s.disk
    ensures Continues(level, run, longer) && During(s, Last(longer), pid, snap, GenRenamed)
    ensures file.Present? && file.val == snap && Last(longer).disk == s.disk.RenameGen(|s.log|, file)
  {
    file := Last(run).tmp.gens[s.nextActor].file;
    PublishGoesOn(level, s, Last(run), pid, snap, BaseChecked);
    longer := Extend(level, run, PubStep(s.nextActor));
  }

  lemma BeforeDisk(level: Level, run: seq<State>, s: State, pid: nat, snap: Snapshot, stage: PubStage)
    returns (longer: seq<State>)
    requires IsRun(level, run) && During(s, Last(run), pid, snap, stage) && stage.Rank() < 3 && Last(run).disk == s.disk
    ensures Continues(level, run, longer) && During(s, Last(longer), pid, snap, Following(stage))
    ensures Last(longer).disk == s.disk
  {
    PublishGoesOn(level, s, Last(run), pid, snap, stage);
    longer := Extend(level, run, PubStep(s.nextActor));
  }

  // -- Repairing -------------------------------------------------------------------------------------

  /** From any reachable state `repair` can remove all staging files, and nothing else changes. */
  lemma {:induction false} RepairAll(level: Level, run: seq<State>) returns (longer: seq<State>)
    requires IsRun(level, run)
    ensures Continues(level, run, longer)
    ensures Last(longer) == Last(run).(tmp := Staging(map[], Absent, Absent, false))
    decreases |Last(run).tmp.gens|
  {
    var s := Last(run);
    if w :| w in s.tmp.gens {
      longer := Extend(level, run, Repair(GenStaging(w)));
      assert w !in Last(longer).tmp.gens && Last(longer).tmp.gens.Keys == s.tmp.gens.Keys - {w};
      assert |Last(longer).tmp.gens.Keys| < |s.tmp.gens.Keys|;
      assert |Last(longer).tmp.gens| == |Last(longer).tmp.gens.Keys| && |s.tmp.gens| == |s.tmp.gens.Keys|;
      longer := RepairAll(level, longer);
    } else {
      assert s.tmp.gens == map[];
      longer := Extend(level, run, Repair(HeadStaging));
      longer := Extend(level, longer, Repair(JournalStaging));
      longer := Extend(level, longer, Repair(ManifestStaging));
    }
  }

  // -- Opening ---------------------------------------------------------------------------------------

  /** `t` is `s` with one more handle, on generation `g`, opened explicitly. */
  ghost predicate Opened(s: State, t: State, pid: nat, g: nat) {
    && s.disk.Has(g)
    && t.actors == s.actors[s.nextActor :=
         Actor(pid, Holding(g, s.nextPin, s.disk.GenSlot(g).now.val, g < Length(s.disk.head.now)))]
    && t.pins == s.pins[s.nextPin := Pin(g, pid, s.nextActor, HeadOf(s.disk.head.now) == Some(g))]
    && t.nextPin == s.nextPin + 1 && t.nextActor == s.nextActor + 1
    && t.disk == s.disk && t.log == s.log && t.lock == s.lock && t.alive == s.alive && t.dead == s.dead
    && t.tmp == s.tmp && t.acked == s.acked && t.crashed == s.crashed
  }

  lemma Open(level: Level, run: seq<State>, pid: nat, g: nat) returns (longer: seq<State>)
    requires IsRun(level, run) && pid in Last(run).alive && Last(run).disk.Has(g)
    ensures Continues(level, run, longer) && Opened(Last(run), Last(longer), pid, g)
  {
    var s, a := Last(run), Last(run).nextActor;
    longer := Extend(level, run, StartOpen(pid, Some(g)));
    longer := Extend(level, longer, OpenStep(a));
    longer := Extend(level, longer, OpenStep(a));
    longer := Extend(level, longer, OpenStep(a));
    assert Last(longer).actors == s.actors[a := Last(longer).actors[a]];
  }

  /** What an explicit open above HEAD loads need not be what is committed there later: two handles on one
      generation, the first opened before its commit, may differ. */
  lemma UncommittedLoadsMayDiffer(level: Level) returns (run: seq<State>, first: nat, second: nat)
    ensures IsRun(level, run)
    ensures var s := run[|run| - 1];
      && first in s.actors && s.actors[first].phase.Holding? && !s.actors[first].phase.committed
      && second in s.actors && s.actors[second].phase.Holding? && s.actors[second].phase.committed
      && s.actors[first].phase.gen == s.actors[second].phase.gen
      && s.actors[first].phase.snap != s.actors[second].phase.snap
  {
    run := PublishMany(level, 0, "");
    HeadNamesAWholeHistory(level, run, |run| - 1);
    var file;
    run, file := InterruptedPublish(level, run, 0, Snapshot(0, "a"));
    run := Extend(level, run, Spawn(1));
    first := Last(run).nextActor;
    run := Open(level, run, 1, 0);
    run := Publish(level, run, 1, "b");
    second := Last(run).nextActor;
    run := Open(level, run, 1, 0);
  }
}
