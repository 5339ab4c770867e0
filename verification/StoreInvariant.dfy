/** The invariant of every reachable state of the store, and its preservation step by step. */
module StoreInvariant {
  import opened Options
  import opened StoreDisk
  import opened Retention
  import opened StoreMachine
  import opened StoreDiskSafety

  // -- What each running call may rely on -------------------------------------------------------

  ghost predicate PubInv(level: Level, s: State, a: nat, p: Phase)
    requires p.Publishing?
  {
    var g, r := p.snap.generation, p.pub.Rank();
    && FollowsBase(p.base, p.snap)
    && (3 <= r < 8 ==> |s.log| == g)
    && (4 <= r < 8 ==> s.disk.GenSlot(g).now == Present(p.snap, level.AtLeast(L1)))
    && (5 <= r < 8 && level.AtLeast(L2) ==> s.disk.head.past == {} && s.disk.GenSlot(g).past == {})
    && (r == 6 && s.tmp.head.Present? ==> s.tmp.head == Present(g, false))
    && (r == 7 && s.tmp.head.Present? ==> s.tmp.head == Present(g, level.AtLeast(L1)))
    && (r >= 8 ==> |s.log| == g + 1 && s.log[g] == Commit(p.snap, a))
    && (r == 9 && level.AtLeast(L2) ==> s.disk.head.past == {})
    && (a in s.tmp.gens ==> s.tmp.gens[a].file == Present(p.snap, r >= 1 && level.AtLeast(L1)))
    && (r < 8 ==> forall i :: 0 <= i < |s.log| ==> s.log[i].writer != a)
  }

  ghost predicate GcInv(level: Level, s: State, gc: Gc, stage: GcStage) {
    var early := stage.Waiting? || stage.Entered?;
    var unlisted := early || stage.HeadRead? || stage.Reaped?;
    var unscanned := unlisted || stage.Listed?;
    && ValidSchedule(gc.schedule)
    && (!early ==> |s.log| == gc.head + 1)
    && (!unlisted ==> ListedInv(s, gc))
    && (!unscanned ==> VictimsInv(s, gc))
    && (Journaling(stage) ==> gc.victims != [])
    && (stage.JournalStaged? && s.tmp.journal.Present? ==>
          s.tmp.journal == Present(Reclaimed(s.disk.journal.now) + {gc.victims[0]}, false))
    && (stage.JournalFileSynced? && s.tmp.journal.Present? ==>
          s.tmp.journal == Present(Reclaimed(s.disk.journal.now) + {gc.victims[0]}, level.AtLeast(L1)))
    && (stage.JournalRenamed? || stage.JournalSynced? ==> gc.victims[0] in Reclaimed(s.disk.journal.now))
    && (stage.JournalSynced? && level.AtLeast(L2) ==> s.disk.head.past == {} && s.disk.journal.past == {})
  }

  predicate Journaling(stage: GcStage) {
    stage.JournalStaged? || stage.JournalFileSynced? || stage.JournalRenamed? || stage.JournalSynced?
  }

  /** Pins missing from the listing were made after it; those made at HEAD are on HEAD itself. */
  ghost predicate ListedInv(s: State, gc: Gc) {
    && (forall pin :: pin in gc.listed ==> pin < s.nextPin)
    && (forall pin :: pin in gc.listed && PinnerAlive(s, pin) ==> s.pins[pin] == gc.listed[pin])
    && (forall pin :: PinnerAlive(s, pin) && s.pins[pin].atHead && pin !in gc.listed ==>
          s.pins[pin].gen >= gc.head || !Listable(s.pins[pin].gen))
  }

  ghost predicate VictimsInv(s: State, gc: Gc) {
    && (forall pin :: pin in gc.listed && PinnerAlive(s, pin) ==> s.pins[pin].gen in gc.live)
    && (forall v :: v in gc.victims ==> v < gc.head && Listable(v) && v !in gc.live)
  }

  ghost predicate OpenInv(s: State, a: nat, pid: nat, p: Phase) {
    match p
    case Bound(g, viaHead) => viaHead ==> g < |s.log|
    case Pinned(g, pin, viaHead) => OwnPin(s, a, pid, g, pin) && (viaHead ==> g < |s.log|)
    case Holding(g, pin, snap, committed) =>
      && OwnPin(s, a, pid, g, pin)
      && snap.generation == g
      && (committed ==> g < |s.log| && snap == s.log[g].snap)
    case _ => true
  }

  predicate OwnPin(s: State, a: nat, pid: nat, g: nat, pin: nat) {
    pin in s.pins && s.pins[pin].gen == g && s.pins[pin].pid == pid && s.pins[pin].owner == a
  }

  ghost predicate ActorInv(level: Level, s: State, a: nat)
    requires a in s.actors
  {
    var p := s.actors[a].phase;
    && s.actors[a].pid in s.alive
    && a < s.nextActor
    && (HoldsLock(p) ==> s.lock == Some(a))
    && (p.Publishing? ==> PubInv(level, s, a, p))
    && (p.Collecting? ==> GcInv(level, s, p.gc, p.stage))
    && OpenInv(s, a, s.actors[a].pid, p)
  }

  ghost predicate Bookkeeping(s: State) {
    && s.alive !! s.dead
    && (s.lock.Some? ==> s.lock.value in s.actors && HoldsLock(s.actors[s.lock.value].phase))
    && (forall pin :: pin in s.pins ==> pin < s.nextPin && s.pins[pin].pid in s.alive + s.dead)
    && (forall i :: 0 <= i < |s.log| ==> s.log[i].writer < s.nextActor)
    && (forall i, j :: 0 <= i < j < |s.log| ==> s.log[i].writer != s.log[j].writer)
    && (forall g :: g in s.acked ==> g < |s.log| && s.log[g].snap == s.acked[g])
  }

  /** A live pin made while its generation was HEAD still has its file. */
  ghost predicate PinsHold(s: State) {
    forall pin :: PinnerAlive(s, pin) && s.pins[pin].atHead ==>
      s.pins[pin].gen < |s.log| && s.disk.Has(s.pins[pin].gen)
  }

  ghost predicate Inv(level: Level, s: State) {
    && DiskInv(level, s.disk, s.log, s.acked.Keys, s.crashed)
    && Bookkeeping(s)
    && PinsHold(s)
    && (forall a :: a in s.actors ==> ActorInv(level, s, a))
  }

  lemma InitInv(level: Level)
    ensures Inv(level, INIT)
  {
  }

  // -- Calls that are not stepping keep their part of the invariant ------------------------------

  /** `t` follows `s` by a step that touches no file the lock protects. */
  ghost predicate Undisturbed(s: State, t: State, b: nat) {
    && t.disk == s.disk && t.log == s.log
    && (t.tmp.head == s.tmp.head || t.tmp.head == Absent)
    && (t.tmp.journal == s.tmp.journal || t.tmp.journal == Absent)
    && (b in t.tmp.gens ==> b in s.tmp.gens && t.tmp.gens[b] == s.tmp.gens[b])
    && b in s.actors && b in t.actors && t.actors[b] == s.actors[b]
    && s.actors[b].pid in t.alive
    && (s.lock == Some(b) ==> t.lock == Some(b))
    && s.nextPin <= t.nextPin && s.nextActor <= t.nextActor
    && (forall pin: nat :: PinnerAlive(t, pin) ==>
          || (PinnerAlive(s, pin) && t.pins[pin] == s.pins[pin])
          || (pin >= s.nextPin && (t.pins[pin].atHead ==> t.pins[pin].gen + 1 == |s.log|)))
    && (forall pin: nat :: OwnPin(s, b, s.actors[b].pid, if pin in s.pins then s.pins[pin].gen else 0, pin)
          ==> pin in t.pins && t.pins[pin] == s.pins[pin])
  }

  lemma UnlockedKeepsOther(level: Level, s: State, t: State, b: nat)
    requires b in s.actors && ActorInv(level, s, b) && Undisturbed(s, t, b)
    ensures ActorInv(level, t, b)
  {
    var p := s.actors[b].phase;
    if p.Collecting? {
      assert GcInv(level, s, p.gc, p.stage);
    }
  }

  /** `t` follows `s` by a step of the lock holder `a`. */
  ghost predicate LockStep(s: State, t: State, a: nat, b: nat) {
    && a != b && s.lock == Some(a)
    && (t.log == s.log || exists c: Commit :: t.log == s.log + [c] && c.writer == a)
    && t.pins == s.pins && t.nextPin == s.nextPin && t.nextActor == s.nextActor && t.alive == s.alive
    && (b in t.tmp.gens ==> b in s.tmp.gens && t.tmp.gens[b] == s.tmp.gens[b])
    && b in s.actors && b in t.actors && t.actors[b] == s.actors[b]
  }

  lemma LockedKeepsOther(level: Level, s: State, t: State, a: nat, b: nat)
    requires b in s.actors && ActorInv(level, s, b) && LockStep(s, t, a, b)
    ensures ActorInv(level, t, b)
  {
    assert !HoldsLock(s.actors[b].phase);
  }
}
