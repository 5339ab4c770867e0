/** What each directory operation of the commit and deletion protocols keeps, whoever performs it. */
module StoreDiskSafety {
  import opened StoreDisk
  import opened StoreMachine

  /** What processes see: HEAD's file is there, committed content never changed, absences are journaled. */
  ghost predicate Consistent(d: Disk, log: seq<Commit>) {
    && Length(d.head.now) == |log|
    && (|log| > 0 ==> d.Has(|log| - 1))
    && (forall g: nat :: g < |log| && d.Has(g) ==> d.GenSlot(g).now.val == log[g].snap)
    && (forall g: nat :: g < |log| && !d.Has(g) ==> g in Reclaimed(d.journal.now))
    && (forall g: nat :: d.Has(g) ==> d.GenSlot(g).now.val.generation == g && g <= |log| + 1)
    && (forall g: nat :: g in Reclaimed(d.journal.now) ==> g < |log|)
    && (forall g: nat :: g < |log| ==> log[g].snap.generation == g)
  }

  ghost predicate HeadDurable(d: Disk, log: seq<Commit>, acked: set<nat>) {
    forall e :: e in d.head.Outcomes() ==>
      && (e.Present? ==> e.synced)
      && Length(e) <= |log| <= Length(e) + 1
      && (forall g :: g in acked ==> g < Length(e))
  }

  ghost predicate GensDurable(d: Disk, log: seq<Commit>) {
    && (forall g: nat, f :: f in d.GenSlot(g).Outcomes() && f.Present? ==>
          && f.synced && f.val.generation == g
          && (g < |log| ==> f.val == log[g].snap)
          && (forall e :: e in d.head.Outcomes() ==> g <= Length(e) + 1))
    && (forall g: nat :: g < |log| && Absent in d.GenSlot(g).Outcomes() ==>
          && (forall e :: e in d.head.Outcomes() ==> g + 1 < Length(e))
          && (forall j :: j in d.journal.Outcomes() ==> g in Reclaimed(j)))
  }

  ghost predicate JournalDurable(d: Disk) {
    forall j :: j in d.journal.Outcomes() ==>
      && (j.Present? ==> j.synced)
      && (forall g, e :: g in Reclaimed(j) && e in d.head.Outcomes() ==> g < Length(e))
  }

  /** The same facts for every outcome an operating-system crash may leave. */
  ghost predicate Durable(d: Disk, log: seq<Commit>, acked: set<nat>) {
    HeadDurable(d, log, acked) && GensDurable(d, log) && JournalDurable(d)
  }

  ghost predicate DiskInv(level: Level, d: Disk, log: seq<Commit>, acked: set<nat>, crashed: bool) {
    && Consistent(d, log)
    && (!crashed ==> forall g: nat :: d.Has(g) ==> g <= |log|)
    && (level.AtLeast(L2) ==> Durable(d, log, acked))
  }

  lemma DirsyncKeeps(level: Level, d: Disk, log: seq<Commit>, acked: set<nat>, crashed: bool)
    requires DiskInv(level, d, log, acked, crashed)
    ensures DiskInv(level, d.Dirsync(), log, acked, crashed)
  {
    var t := d.Dirsync();
    assert forall g: nat :: t.GenSlot(g).now == d.GenSlot(g).now && t.Has(g) == d.Has(g);
    assert forall g: nat :: t.GenSlot(g).Outcomes() <= d.GenSlot(g).Outcomes();
    assert t.head.Outcomes() <= d.head.Outcomes();
    assert t.journal.Outcomes() <= d.journal.Outcomes();
  }

  /** Generation-first: the new file is named while no outcome of HEAD can reach it yet. */
  lemma RenameGenKeeps(level: Level, d: Disk, log: seq<Commit>, acked: set<nat>, crashed: bool, file: Entry<Snapshot>)
    requires DiskInv(level, d, log, acked, crashed)
    requires file.Present? && file.val.generation == |log|
    requires level.AtLeast(L2) ==> file.synced
    ensures DiskInv(level, d.RenameGen(|log|, file), log, acked, crashed)
  {
    var t := d.RenameGen(|log|, file);
    assert t.GenSlot(|log|) == d.GenSlot(|log|).Write(file);
    assert forall g: nat :: g != |log| ==> t.GenSlot(g) == d.GenSlot(g);
    assert forall g: nat :: g != |log| ==> t.Has(g) == d.Has(g);
    assert Consistent(t, log);
    if level.AtLeast(L2) {
      assert HeadDurable(t, log, acked) && JournalDurable(t);
      RenameGenKeepsDurable(d, log, acked, file);
    }
  }

  lemma RenameGenKeepsDurable(d: Disk, log: seq<Commit>, acked: set<nat>, file: Entry<Snapshot>)
    requires HeadDurable(d, log, acked) && GensDurable(d, log)
    requires file.Present? && file.val.generation == |log| && file.synced
    ensures GensDurable(d.RenameGen(|log|, file), log)
  {
    var t := d.RenameGen(|log|, file);
    assert t.head == d.head && t.journal == d.journal;
    forall g: nat, f | f in t.GenSlot(g).Outcomes() && f.Present?
      ensures f.synced && f.val.generation == g && (g < |log| ==> f.val == log[g].snap)
      ensures forall e :: e in t.head.Outcomes() ==> g <= Length(e) + 1
    {
      assert f in d.GenSlot(g).Outcomes() || (g == |log| && f == file);
    }
    forall g: nat | g < |log| && Absent in t.GenSlot(g).Outcomes()
      ensures forall e :: e in t.head.Outcomes() ==> g + 1 < Length(e)
      ensures forall j :: j in t.journal.Outcomes() ==> g in Reclaimed(j)
    {
      assert Absent in d.GenSlot(g).Outcomes();
    }
  }

  lemma RenameHeadKeeps(level: Level, d: Disk, log: seq<Commit>, acked: set<nat>, crashed: bool,
                        file: Entry<nat>, c: Commit)
    requires DiskInv(level, d, log, acked, crashed)
    requires file == Present(|log|, level.AtLeast(L1))
    requires c.snap.generation == |log|
    requires d.GenSlot(|log|).now == Present(c.snap, level.AtLeast(L1))
    requires level.AtLeast(L2) ==> d.head.past == {} && d.GenSlot(|log|).past == {}
    ensures DiskInv(level, d.RenameHead(file), log + [c], acked, crashed)
  {
    var t := d.RenameHead(file);
    assert forall g: nat :: t.GenSlot(g) == d.GenSlot(g);
    assert forall g: nat :: t.Has(g) == d.Has(g);
    if level.AtLeast(L2) {
      RenameHeadKeepsDurable(d, log, acked, c);
    }
  }

  lemma RenameHeadKeepsDurable(d: Disk, log: seq<Commit>, acked: set<nat>, c: Commit)
    requires Durable(d, log, acked) && Length(d.head.now) == |log| && c.snap.generation == |log|
    requires d.head.past == {} && d.GenSlot(|log|) == Slot(Present(c.snap, true), {})
    ensures Durable(d.RenameHead(Present(|log|, true)), log + [c], acked)
  {
    var t, file := d.RenameHead(Present(|log|, true)), Present(|log|, true);
    assert d.head.Outcomes() == {d.head.now} && t.head.Outcomes() == {d.head.now, file};
    assert d.GenSlot(|log|).Outcomes() == {Present(c.snap, true)};
    assert t.journal.Outcomes() == d.journal.Outcomes();
    assert forall g: nat :: t.GenSlot(g) == d.GenSlot(g);
    assert d.head.now in d.head.Outcomes();
  }

  /** Record-first: a generation below HEAD is journaled before it may be removed. */
  lemma RenameJournalKeeps(level: Level, d: Disk, log: seq<Commit>, acked: set<nat>, crashed: bool,
                           file: Entry<set<nat>>, v: nat)
    requires DiskInv(level, d, log, acked, crashed)
    requires v + 1 < |log|
    requires file == Present(Reclaimed(d.journal.now) + {v}, level.AtLeast(L1))
    ensures DiskInv(level, d.RenameJournal(file), log, acked, crashed)
  {
    var t := d.RenameJournal(file);
    assert forall g: nat :: t.GenSlot(g) == d.GenSlot(g);
    assert forall g: nat :: t.Has(g) == d.Has(g);
    if level.AtLeast(L2) {
      RenameJournalKeepsDurable(d, log, acked, v);
    }
  }

  lemma RenameJournalKeepsDurable(d: Disk, log: seq<Commit>, acked: set<nat>, v: nat)
    requires Durable(d, log, acked) && v + 1 < |log|
    ensures Durable(d.RenameJournal(Present(Reclaimed(d.journal.now) + {v}, true)), log, acked)
  {
    var file := Present(Reclaimed(d.journal.now) + {v}, true);
    var t := d.RenameJournal(file);
    assert t.head.Outcomes() == d.head.Outcomes();
    assert t.journal.Outcomes() == d.journal.Outcomes() + {file};
    assert d.journal.now in d.journal.Outcomes();
    assert forall g: nat :: t.GenSlot(g) == d.GenSlot(g);
  }

  /** The unlink is safe because the barrier before it settled both HEAD and the journal. */
  lemma UnlinkKeeps(level: Level, d: Disk, log: seq<Commit>, acked: set<nat>, crashed: bool, v: nat)
    requires DiskInv(level, d, log, acked, crashed)
    requires v + 1 < |log| && v in Reclaimed(d.journal.now)
    requires level.AtLeast(L2) ==> d.head.past == {} && d.journal.past == {}
    ensures DiskInv(level, d.UnlinkGen(v), log, acked, crashed)
  {
    var t := d.UnlinkGen(v);
    assert t.GenSlot(v) == d.GenSlot(v).Write(Absent);
    assert forall g: nat :: g != v ==> t.GenSlot(g) == d.GenSlot(g);
    assert forall g: nat :: g != v ==> t.Has(g) == d.Has(g);
    if level.AtLeast(L2) {
      UnlinkKeepsDurable(d, log, acked, v);
    }
  }

  lemma UnlinkKeepsDurable(d: Disk, log: seq<Commit>, acked: set<nat>, v: nat)
    requires Durable(d, log, acked) && Length(d.head.now) == |log|
    requires v + 1 < |log| && v in Reclaimed(d.journal.now) && d.head.past == {} && d.journal.past == {}
    ensures Durable(d.UnlinkGen(v), log, acked)
  {
    var t := d.UnlinkGen(v);
    assert d.head.Outcomes() == {d.head.now} && d.journal.Outcomes() == {d.journal.now};
    assert t.GenSlot(v) == d.GenSlot(v).Write(Absent);
    assert forall g: nat :: g != v ==> t.GenSlot(g) == d.GenSlot(g);
  }

  /** Whatever subset of unsynced entry changes survives, the directory is a consistent store again. */
  lemma CrashKeeps(level: Level, d: Disk, log: seq<Commit>, acked: set<nat>, crashed: bool, after: Disk)
    requires level.AtLeast(L2)
    requires DiskInv(level, d, log, acked, crashed)
    requires d.CrashOutcome(after)
    ensures Length(after.head.now) <= |log|
    ensures DiskInv(level, after, log[..Length(after.head.now)], acked, true)
  {
    CrashOutcomesAreOutcomes(d, log, acked, after);
    CrashConsistent(d, log, acked, after);
    CrashDurable(d, log, acked, after);
  }

  lemma CrashOutcomesAreOutcomes(d: Disk, log: seq<Commit>, acked: set<nat>, after: Disk)
    requires Durable(d, log, acked) && d.CrashOutcome(after)
    ensures after.head.now in d.head.Outcomes() && after.head.past == {}
    ensures after.journal.now in d.journal.Outcomes() && after.journal.past == {}
    ensures forall g: nat :: after.GenSlot(g).now in d.GenSlot(g).Outcomes() && after.GenSlot(g).past == {}
  {
    forall g: nat
      ensures after.GenSlot(g).now in d.GenSlot(g).Outcomes() && after.GenSlot(g).past == {}
    {
      if g in d.gens {
        assert d.gens[g].Survives(after.gens[g]);
      }
    }
  }

  lemma CrashConsistent(d: Disk, log: seq<Commit>, acked: set<nat>, after: Disk)
    requires Consistent(d, log) && Durable(d, log, acked)
    requires after.head.now in d.head.Outcomes()
    requires after.journal.now in d.journal.Outcomes()
    requires forall g: nat :: after.GenSlot(g).now in d.GenSlot(g).Outcomes()
    ensures Length(after.head.now) <= |log|
    ensures Consistent(after, log[..Length(after.head.now)])
  {
    var e := after.head.now;
    forall g: nat | g < Length(e) && !after.Has(g)
      ensures g in Reclaimed(after.journal.now) && g + 1 < Length(e)
    {
      assert Absent in d.GenSlot(g).Outcomes();
    }
    forall g: nat | after.Has(g)
      ensures after.GenSlot(g).now.val.generation == g && g <= Length(e) + 1
      ensures g < Length(e) ==> after.GenSlot(g).now.val == log[g].snap
    {
      var f := after.GenSlot(g).now;
      assert f in d.GenSlot(g).Outcomes() && f.Present?;
    }
  }

  lemma CrashDurable(d: Disk, log: seq<Commit>, acked: set<nat>, after: Disk)
    requires Consistent(d, log) && Durable(d, log, acked)
    requires after.head.now in d.head.Outcomes() && after.head.past == {}
    requires after.journal.now in d.journal.Outcomes() && after.journal.past == {}
    requires forall g: nat :: after.GenSlot(g).now in d.GenSlot(g).Outcomes() && after.GenSlot(g).past == {}
    requires Length(after.head.now) <= |log|
    ensures Durable(after, log[..Length(after.head.now)], acked)
  {
    var kept := log[..Length(after.head.now)];
    assert after.head.Outcomes() == {after.head.now};
    assert after.journal.Outcomes() == {after.journal.now};
    forall g: nat, f | f in after.GenSlot(g).Outcomes()
      ensures f == after.GenSlot(g).now && f in d.GenSlot(g).Outcomes()
    {
    }
    assert GensDurable(after, kept);
  }
}
