/** The store directory as the kernel sees it, entry by entry.

  A `Slot` is one directory entry.  `now` is what a process reads from it; `past` holds the
  values it had since the last directory barrier, any of which an operating-system crash may
  bring back.  Renames and unlinks are writes to a slot; `Dirsync` empties every `past`.
 */
module StoreDisk {
  import opened Options

  datatype Level = L0 | L1 | L2 | L3 {
    function Rank(): nat {
      match this case L0 => 0 case L1 => 1 case L2 => 2 case L3 => 3
    }

    predicate AtLeast(other: Level) {
      Rank() >= other.Rank()
    }
  }

  /** One generation file: the generation number embedded in it, and the rest of its text. */
  datatype Snapshot = Snapshot(generation: nat, body: string)

  /** `synced` says whether the content was forced to storage before the entry was named. */
  datatype Entry<T> = Absent | Present(val: T, synced: bool)

  datatype Slot<T(==)> = Slot(now: Entry<T>, past: set<Entry<T>>) {
    function Outcomes(): set<Entry<T>> {
      past + {now}
    }

    function Write(e: Entry<T>): Slot<T> {
      Slot(e, Outcomes())
    }

    function Sync(): Slot<T> {
      Slot(now, {})
    }

    /** After a crash the entry holds one of its outcomes; content never forced may be anything. */
    ghost predicate Survives(after: Slot<T>) {
      && after.past == {}
      && exists e :: e in Outcomes() && EntrySurvives(e, after.now)
    }
  }

  ghost predicate EntrySurvives<T>(before: Entry<T>, after: Entry<T>) {
    if before.Present? then after.Present? && (before.synced ==> after == before) else after == before
  }

  datatype Disk = Disk(gens: map<nat, Slot<Snapshot>>, head: Slot<nat>, journal: Slot<set<nat>>) {
    function GenSlot(g: nat): Slot<Snapshot> {
      if g in gens then gens[g] else Slot(Absent, {})
    }

    predicate Has(g: nat) {
      GenSlot(g).now.Present?
    }

    function OnDisk(): set<nat> {
      set g | g in gens && gens[g].now.Present?
    }

    function RenameGen(g: nat, file: Entry<Snapshot>): Disk {
      this.(gens := gens[g := GenSlot(g).Write(file)])
    }

    function UnlinkGen(g: nat): Disk {
      this.(gens := gens[g := GenSlot(g).Write(Absent)])
    }

    function RenameHead(file: Entry<nat>): Disk {
      this.(head := head.Write(file))
    }

    function RenameJournal(file: Entry<set<nat>>): Disk {
      this.(journal := journal.Write(file))
    }

    function Dirsync(): Disk {
      Disk(map g | g in gens :: gens[g].Sync(), head.Sync(), journal.Sync())
    }

    function DirsyncIf(level: Level): Disk {
      if level.AtLeast(L2) then Dirsync() else this
    }

    ghost predicate CrashOutcome(after: Disk) {
      && after.gens.Keys == gens.Keys
      && (forall g :: g in gens ==> gens[g].Survives(after.gens[g]))
      && head.Survives(after.head)
      && journal.Survives(after.journal)
    }
  }

  const EMPTY_DISK := Disk(map[], Slot(Absent, {}), Slot(Absent, {}))

  /** Number of committed generations a HEAD entry stands for: HEAD = n means 0..n were published. */
  function Length(head: Entry<nat>): nat {
    if head.Present? then head.val + 1 else 0
  }

  function HeadOf(head: Entry<nat>): Option<nat> {
    if head.Present? then Some(head.val) else None
  }

  /** A missing journal reads as "nothing reclaimed". */
  function Reclaimed(journal: Entry<set<nat>>): set<nat> {
    if journal.Present? then journal.val else {}
  }
}
