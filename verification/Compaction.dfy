/** `reclaim` and `compact` as file operations, and what interruption does to them.

  A run may be killed after any number of journal writes and unlinks.  `AfterOperations` is the
  directory left behind; the lemmas say that rerunning the schedule always ends in the same place
  and which generations every schedule spares.
 */
module Compaction {
  import opened Collections
  import opened Retention

  /** The generation files (with their sizes) and the reclamation journal. */
  datatype Files = Files(gens: map<nat, nat>, journal: set<nat>)

  /** The directory once the first `recorded` victims are journaled and the first `unlinked` removed. */
  function Progress(f: Files, victims: seq<nat>, unlinked: nat, recorded: nat): Files
    requires unlinked <= |victims| && recorded <= |victims|
  {
    Files(f.gens - Members(victims[..unlinked]), f.journal + Members(victims[..recorded]))
  }

  function Capped(n: nat, limit: nat): nat {
    if n <= limit then n else limit
  }

  /** The directory after `ops` file operations on `victims`: record, unlink, record, unlink, ... */
  function AfterOperations(f: Files, victims: seq<nat>, ops: nat): Files {
    Progress(f, victims, Capped(ops / 2, |victims|), Capped((ops + 1) / 2, |victims|))
  }

  function Plan(schedule: Schedule, f: Files, live: set<nat>, head: nat): seq<nat>
    requires ValidSchedule(schedule)
  {
    Victims(schedule, f.gens.Keys, live, head)
  }

  /** One run of the schedule that is killed after `ops` file operations. */
  function KilledRun(schedule: Schedule, f: Files, live: set<nat>, head: nat, ops: nat): Files
    requires ValidSchedule(schedule)
  {
    AfterOperations(f, Plan(schedule, f, live, head), ops)
  }

  /** One uninterrupted run. */
  function FullRun(schedule: Schedule, f: Files, live: set<nat>, head: nat): Files
    requires ValidSchedule(schedule)
  {
    var victims := Plan(schedule, f, live, head);
    Files(f.gens - Members(victims), f.journal + Members(victims))
  }

  function KilledRuns(schedule: Schedule, f: Files, live: set<nat>, head: nat, kills: seq<nat>): Files
    requires ValidSchedule(schedule)
    decreases |kills|
  {
    if kills == [] then f
    else KilledRuns(schedule, KilledRun(schedule, f, live, head, kills[0]), live, head, kills[1..])
  }

  // -- Order of victims ------------------------------------------------------------------------

  lemma {:induction false} AscendingUnique(a: seq<nat>, b: seq<nat>)
    requires StrictlyAscending(a) && StrictlyAscending(b)
    requires forall g :: g in a <==> g in b
    ensures a == b
  {
    if a != [] { assert a[0] in b; }
    if b != [] { assert b[0] in a; }
    if a != [] {
      assert a[0] == b[0];
      forall g ensures g in a[1..] <==> g in b[1..] {
        if g in a[1..] { assert g in b && g != b[0]; }
        if g in b[1..] { assert g in a && g != a[0]; }
      }
      AscendingUnique(a[1..], b[1..]);
    }
  }

  /** Deleting the first `k` victims leaves exactly the remaining ones to delete. */
  lemma RemainingVictims(schedule: Schedule, gens: map<nat, nat>, live: set<nat>, head: nat, k: nat)
    requires ValidSchedule(schedule)
    requires k <= |Victims(schedule, gens.Keys, live, head)|
    ensures var v := Victims(schedule, gens.Keys, live, head);
      Victims(schedule, (gens - Members(v[..k])).Keys, live, head) == v[k..]
  {
    var v := Victims(schedule, gens.Keys, live, head);
    var rest := (gens - Members(v[..k])).Keys;
    var all := Candidates(schedule, gens.Keys, live, head);
    var left := Candidates(schedule, rest, live, head);
    assert v[..k] == all[..k];
    forall g ensures g in left <==> g in all[k..] {
      if g in all && g !in all[..k] {
        assert g in all[k..];
      }
      if g in all[k..] {
        var j :| k <= j < |all| && all[j] == g;
        assert g !in all[..k];
        assert all[j] in all;
      }
    }
    AscendingUnique(left, all[k..]);
  }

  // -- Crash and resume ------------------------------------------------------------------------

  /** A killed run followed by a full run ends where one full run ends. */
  lemma ResumeConverges(schedule: Schedule, f: Files, live: set<nat>, head: nat, ops: nat)
    requires ValidSchedule(schedule)
    ensures FullRun(schedule, KilledRun(schedule, f, live, head, ops), live, head) == FullRun(schedule, f, live, head)
  {
    var v := Plan(schedule, f, live, head);
    var k, r := Capped(ops / 2, |v|), Capped((ops + 1) / 2, |v|);
    RemainingVictims(schedule, f.gens, live, head, k);
    PrefixesCover(v, k, k);
    PrefixesCover(v, r, k);
    var mid := KilledRun(schedule, f, live, head, ops);
    RemoveTwice(f.gens, Members(v[..k]), Members(v[k..]));
    calc {
      FullRun(schedule, mid, live, head);
      Files(mid.gens - Members(v[k..]), mid.journal + Members(v[k..]));
      Files(f.gens - Members(v), f.journal + (Members(v[..r]) + Members(v[k..])));
      FullRun(schedule, f, live, head);
    }
  }

  lemma RemoveTwice(m: map<nat, nat>, a: set<nat>, b: set<nat>)
    ensures m - a - b == m - (a + b)
  {
  }

  lemma PrefixesCover(v: seq<nat>, r: nat, k: nat)
    requires k <= r <= |v|
    ensures Members(v[..r]) + Members(v[k..]) == Members(v)
  {
    forall g | g in v ensures g in v[..r] || g in v[k..] {
      var i :| 0 <= i < |v| && v[i] == g;
      if i < r { assert v[..r][i] == g; } else { assert v[k..][i - k] == g; }
    }
  }

  /** However often the run was killed before, finishing it ends in the same directory. */
  lemma {:induction false} CompactionConverges(schedule: Schedule, f: Files, live: set<nat>, head: nat, kills: seq<nat>)
    requires ValidSchedule(schedule)
    ensures FullRun(schedule, KilledRuns(schedule, f, live, head, kills), live, head)
         == FullRun(schedule, f, live, head)
    decreases |kills|
  {
    if kills != [] {
      ResumeConverges(schedule, f, live, head, kills[0]);
      CompactionConverges(schedule, KilledRun(schedule, f, live, head, kills[0]), live, head, kills[1..]);
    }
  }

  /** After a full run the schedule has nothing left to remove. */
  lemma FurtherRunRemovesNothing(schedule: Schedule, f: Files, live: set<nat>, head: nat)
    requires ValidSchedule(schedule)
    ensures Plan(schedule, FullRun(schedule, f, live, head), live, head) == []
    ensures var g := FullRun(schedule, f, live, head); FullRun(schedule, g, live, head) == g
  {
    var v := Plan(schedule, f, live, head);
    assert v[..|v|] == v;
    RemainingVictims(schedule, f.gens, live, head, |v|);
    assert Members<nat>([]) == {};
  }

  // -- What a schedule spares ------------------------------------------------------------------

  lemma {:induction false} AscendingSize(s: seq<nat>)
    requires StrictlyAscending(s)
    ensures |Members(s)| == |s|
  {
    if s == [] {
      assert Members(s) == {};
    } else {
      var init := s[..|s| - 1];
      AscendingSize(init);
      assert s == init + [s[|s| - 1]];
      assert Members(s) == Members(init) + {s[|s| - 1]};
    }
  }

  /** keep-recent:N deletes a candidate exactly when N newer candidates remain. */
  lemma KeepRecentExact(n: nat, onDisk: set<nat>, live: set<nat>, head: nat, g: nat)
    ensures g in Victims(KeepRecent(n), onDisk, live, head) <==>
      && g in onDisk && Listable(g) && g !in live && g < head
      && |set h | h in onDisk && Listable(h) && h !in live && g < h < head| >= n
  {
    var all := Candidates(KeepRecent(n), onDisk, live, head);
    var pool := set h | h in onDisk && Listable(h) && h !in live;
    if g in all {
      var i :| 0 <= i < |all| && all[i] == g;
      NewerCandidates(all, pool, head, i);
      assert (set h | h in onDisk && Listable(h) && h !in live && g < h < head) == set h | h in pool && g < h < head;
      var keep := if |all| > n then |all| - n else 0;
      if g in all[..keep] {
        var j :| 0 <= j < keep && all[..keep][j] == g;
        assert j == i;
      }
      if i < keep {
        assert all[..keep][i] == g;
      }
    } else {
      assert g !in Victims(KeepRecent(n), onDisk, live, head);
    }
  }

  lemma NewerCandidates(all: seq<nat>, pool: set<nat>, head: nat, i: nat)
    requires StrictlyAscending(all) && i < |all|
    requires forall g :: g in all <==> g in pool && g < head
    ensures |set h | h in pool && all[i] < h < head| == |all| - i - 1
  {
    var newer := set h | h in pool && all[i] < h < head;
    var tail := all[i + 1..];
    forall h ensures h in newer <==> h in tail {
      if h in newer {
        assert h in all;
        var j :| 0 <= j < |all| && all[j] == h;
        assert tail[j - i - 1] == h;
      }
      if h in tail {
        assert h in all;
      }
    }
    assert newer == Members(tail);
    AscendingSize(tail);
  }

  /** keep-recent:N keeps every one of the N newest generations below HEAD. */
  lemma KeepRecentKeepsNewest(n: nat, onDisk: set<nat>, live: set<nat>, head: nat, g: nat)
    requires |set h | h in onDisk && g < h < head| < n
    ensures g !in Victims(KeepRecent(n), onDisk, live, head)
  {
    KeepRecentExact(n, onDisk, live, head, g);
    var newer := set h | h in onDisk && Listable(h) && h !in live && g < h < head;
    var all := set h | h in onDisk && g < h < head;
    SubsetNotLarger(newer, all);
  }

  /** checkpoint:N deletes exactly the listable unpinned generations below HEAD that are not multiples of N. */
  lemma CheckpointExact(n: nat, onDisk: set<nat>, live: set<nat>, head: nat, g: nat)
    requires n >= 1
    ensures g in Victims(Checkpoint(n), onDisk, live, head) <==>
      g in onDisk && Listable(g) && g !in live && g < head && g % n != 0
  {
  }

  /** prune deletes exactly the listable unpinned generations below HEAD. */
  lemma PruneExact(onDisk: set<nat>, live: set<nat>, head: nat, g: nat)
    ensures g in Victims(Prune, onDisk, live, head) <==> g in onDisk && Listable(g) && g !in live && g < head
  {
  }

  /** The generations a schedule takes, said without the order in which a run finds them. */
  ghost predicate Takes(schedule: Schedule, onDisk: set<nat>, live: set<nat>, head: nat, g: nat)
    requires ValidSchedule(schedule)
  {
    && g in onDisk && Listable(g) && g !in live && g < head
    && match schedule
       case Prune => true
       case KeepRecent(n) => |set h | h in onDisk && Listable(h) && h !in live && g < h < head| >= n
       case Checkpoint(n) => g % n != 0
  }

  lemma VictimsExact(schedule: Schedule, onDisk: set<nat>, live: set<nat>, head: nat, g: nat)
    requires ValidSchedule(schedule)
    ensures g in Victims(schedule, onDisk, live, head) <==> Takes(schedule, onDisk, live, head, g)
  {
    match schedule
    case Prune => PruneExact(onDisk, live, head, g);
    case KeepRecent(n) => KeepRecentExact(n, onDisk, live, head, g);
    case Checkpoint(n) => CheckpointExact(n, onDisk, live, head, g);
  }

  /** A full run removes and journals what its schedule takes, and nothing else. */
  lemma FullRunExact(schedule: Schedule, f: Files, live: set<nat>, head: nat, g: nat)
    requires ValidSchedule(schedule)
    ensures var t, taken := FullRun(schedule, f, live, head), Takes(schedule, f.gens.Keys, live, head, g);
      && (g in t.gens <==> g in f.gens && !taken) && (g in t.gens ==> t.gens[g] == f.gens[g])
      && (g in t.journal <==> g in f.journal || taken)
  {
    VictimsExact(schedule, f.gens.Keys, live, head, g);
  }

  /** After prune only pinned generations and those with seven digits are left below HEAD. */
  lemma PruneLeavesPinnedAndUnlisted(f: Files, live: set<nat>, head: nat, g: nat)
    requires g < head
    ensures g in FullRun(Prune, f, live, head).gens <==> g in f.gens && (g in live || !Listable(g))
  {
    FullRunExact(Prune, f, live, head, g);
  }

  /** No schedule ever deletes a generation with seven digits, however old. */
  lemma SevenDigitsAreNeverVictims(schedule: Schedule, f: Files, live: set<nat>, head: nat, g: nat)
    requires ValidSchedule(schedule) && g in f.gens && g >= LISTED
    ensures g in FullRun(schedule, f, live, head).gens
  {
    assert g !in Plan(schedule, f, live, head);
  }
}
