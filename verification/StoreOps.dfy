/** The maintenance methods of `Store`, with the loops and the in-place updates they perform.

  Each method runs under the exclusive lock, so it is modelled as one sequential run; `ops` is the
  number of journal writes and unlinks the process survives, which makes death at any point of the
  deletion loop an ordinary outcome.
 */
module StoreOps {
  import opened Collections
  import opened Options
  import opened Retention
  import opened Compaction

  datatype PinFile = PinFile(gen: nat, pid: nat)

  /** Staging names: HEAD, manifest and journal staging, a writer's staging, or an unattributable name. */
  datatype TmpKind = HeadTmp | ManifestTmp | JournalTmp | WriterTmp(pid: nat) | UnknownTmp

  datatype TmpFile = TmpFile(kind: TmpKind, size: nat)

  /** A quotient, before it is rounded. */
  datatype Ratio = Ratio(dividend: nat, divisor: nat)

  datatype Accounts = Accounts(removed: seq<nat>, retained: set<nat>, newer: set<nat>,
                               generationsBefore: nat, generationsAfter: nat,
                               bytesBefore: nat, bytesAfter: nat, reclaimedBytes: int,
                               amplificationBefore: Option<Ratio>, amplificationAfter: Option<Ratio>)

  /** What becomes of the staging files. */
  datatype Triage = Triage(
    orphans: set<string>, skippedLive: set<string>, skippedUnknown: set<string>, orphanBytes: nat)

  datatype Report =
    | NothingPublished
    | Report(accounts: Accounts, triage: Triage, pinned: set<nat>, reaped: set<string>, wouldReap: set<string>,
        manifest: bool)

  // -- Accounting ------------------------------------------------------------------------------

  ghost function Total(sizes: map<nat, nat>): nat
    decreases |sizes|
  {
    if sizes == map[] then 0 else
      var g :| g in sizes;
      sizes[g] + Total(sizes - {g})
  }

  lemma {:induction false} TotalRemove(sizes: map<nat, nat>, g: nat)
    requires g in sizes
    ensures Total(sizes) == sizes[g] + Total(sizes - {g})
    decreases |sizes|
  {
    var k :| k in sizes && Total(sizes) == sizes[k] + Total(sizes - {k});
    if k != g {
      TotalRemove(sizes - {k}, g);
      TotalRemove(sizes - {g}, k);
      assert sizes - {k} - {g} == sizes - {g} - {k};
    }
  }

  function SizeOf(sizes: map<nat, nat>, s: seq<nat>): nat
    requires forall g :: g in s ==> g in sizes
  {
    if s == [] then 0 else SizeOf(sizes, s[..|s| - 1]) + sizes[s[|s| - 1]]
  }

  lemma {:induction false} TotalOfRest(sizes: map<nat, nat>, s: seq<nat>)
    requires StrictlyAscending(s) && forall g :: g in s ==> g in sizes
    ensures Total(sizes) == SizeOf(sizes, s) + Total(sizes - Members(s))
  {
    if s == [] {
      assert sizes - Members(s) == sizes;
    } else {
      var init, last := s[..|s| - 1], s[|s| - 1];
      TotalOfRest(sizes, init);
      MembersOfLonger(s);
      RemoveTwice(sizes, Members(init), {last});
      TotalRemove(sizes - Members(init), last);
    }
  }

  lemma MembersOfLonger(s: seq<nat>)
    requires s != [] && StrictlyAscending(s)
    ensures var init, last := s[..|s| - 1], s[|s| - 1];
      && Members(s) == Members(init) + {last} && last !in Members(init)
      && StrictlyAscending(init) && (forall g :: g in init ==> g in s) && last in s
  {
    assert s == s[..|s| - 1] + [s[|s| - 1]];
  }

  lemma CountOfRest(sizes: map<nat, nat>, s: seq<nat>)
    requires StrictlyAscending(s) && forall g :: g in s ==> g in sizes
    ensures |sizes - Members(s)| == |sizes| - |s|
  {
    AscendingSize(s);
    assert (sizes - Members(s)).Keys == sizes.Keys - Members(s);
    assert sizes.Keys == (sizes.Keys - Members(s)) + Members(s);
    assert |sizes.Keys| == |sizes| && |(sizes - Members(s)).Keys| == |sizes - Members(s)|;
  }

  method SumSizes(sizes: map<nat, nat>) returns (sum: nat)
    ensures sum == Total(sizes)
  {
    var names := Sorted(sizes.Keys);
    sum := 0;
    for k := 0 to |names|
      invariant sum == SizeOf(sizes, names[..k])
    {
      assert names[..k + 1][..k] == names[..k];
      assert names[k] in names;
      sum := sum + sizes[names[k]];
    }
    assert names[..|names|] == names;
    TotalOfRest(sizes, names);
    assert sizes - Members(names) == map[];
  }

  /** The part of a directory that six-digit names show. */
  function Visible(gens: map<nat, nat>): map<nat, nat> {
    map g | g in gens && Listable(g) :: gens[g]
  }

  function BelowHead(gens: map<nat, nat>, head: nat): set<nat> {
    set g | g in gens && g < head
  }

  function AboveHead(gens: map<nat, nat>, head: nat): set<nat> {
    set g | g in gens && g > head
  }

  /** Bytes on disk per byte of HEAD, when HEAD is listed and not empty. */
  function Amplification(bytes: nat, sizes: map<nat, nat>, head: nat): Option<Ratio> {
    if head in sizes && sizes[head] > 0 then Some(Ratio(bytes, sizes[head])) else None
  }

  /** What one uninterrupted run of the schedule amounts to, in the generations it can list. */
  ghost function Outcome(schedule: Schedule, f: Files, live: set<nat>, head: nat): Accounts
    requires ValidSchedule(schedule)
  {
    AccountsOf(Plan(schedule, f, live, head), Visible(f.gens), Visible(FullRun(schedule, f, live, head).gens), head)
  }

  ghost function AccountsOf(victims: seq<nat>, before: map<nat, nat>, after: map<nat, nat>, head: nat): Accounts
    requires forall g :: g in victims ==> g in before
  {
    Accounts(victims, BelowHead(after, head), AboveHead(after, head), |before|, |after|, Total(before), Total(after),
             SizeOf(before, victims), Amplification(Total(before), before, head),
             Amplification(Total(after), before, head))
  }

  /** The dry run's subtractions agree with the real run's re-count. */
  lemma ProjectionIsExact(schedule: Schedule, f: Files, live: set<nat>, head: nat)
    requires ValidSchedule(schedule)
    ensures var o, v, sizes := Outcome(schedule, f, live, head), Plan(schedule, f, live, head), Visible(f.gens);
      && o.retained == BelowHead(sizes, head) - Members(v)
      && o.generationsAfter == |sizes| - |v|
      && o.bytesAfter == Total(sizes) - SizeOf(sizes, v)
      && o.newer == AboveHead(sizes, head)
  {
    var v, sizes := Plan(schedule, f, live, head), Visible(f.gens);
    assert Visible(FullRun(schedule, f, live, head).gens) == sizes - Members(v);
    TotalOfRest(sizes, v);
    CountOfRest(sizes, v);
    PartsOfRest(sizes, v, head);
  }

  lemma PartsOfRest(gens: map<nat, nat>, victims: seq<nat>, head: nat)
    requires forall g :: g in victims ==> g < head
    ensures BelowHead(gens - Members(victims), head) == BelowHead(gens, head) - Members(victims)
    ensures AboveHead(gens - Members(victims), head) == AboveHead(gens, head)
  {
  }

  // -- Pins and staging --------------------------------------------------------------------------

  /** A pin file that `reap_stale_pins` removes: listed, and its process is dead. */
  predicate Stale(pin: PinFile, alive: set<nat>) {
    Listable(pin.gen) && pin.pid !in alive
  }

  ghost function LiveGens(pins: map<string, PinFile>, alive: set<nat>): set<nat> {
    set name | name in pins && Listable(pins[name].gen) && pins[name].pid in alive :: pins[name].gen
  }

  ghost function StaleNames(pins: map<string, PinFile>, alive: set<nat>): set<string> {
    set name | name in pins && Stale(pins[name], alive)
  }

  /** Staging whose owner is dead, and staging that can only be written under the lock. */
  predicate Orphan(tmp: TmpFile, alive: set<nat>) {
    tmp.kind.HeadTmp? || tmp.kind.ManifestTmp? || (tmp.kind.WriterTmp? && tmp.kind.pid !in alive)
  }

  ghost function TmpBytes(staging: map<string, TmpFile>): nat
    decreases |staging|
  {
    if staging == map[] then 0 else
      var name :| name in staging;
      staging[name].size + TmpBytes(staging - {name})
  }

  lemma {:induction false} TmpBytesRemove(staging: map<string, TmpFile>, name: string)
    requires name in staging
    ensures TmpBytes(staging) == staging[name].size + TmpBytes(staging - {name})
    decreases |staging|
  {
    var k :| k in staging && TmpBytes(staging) == staging[k].size + TmpBytes(staging - {k});
    if k != name {
      TmpBytesRemove(staging - {k}, name);
      TmpBytesRemove(staging - {name}, k);
      assert staging - {k} - {name} == staging - {name} - {k};
    }
  }

  function OrphanFiles(staging: map<string, TmpFile>, alive: set<nat>): map<string, TmpFile> {
    map name | name in staging && Orphan(staging[name], alive) :: staging[name]
  }

  ghost function TriageOf(staging: map<string, TmpFile>, alive: set<nat>): Triage {
    Triage(OrphanFiles(staging, alive).Keys,
           (set name | name in staging && staging[name].kind.WriterTmp? && staging[name].kind.pid in alive),
           (set name | name in staging && staging[name].kind.UnknownTmp?),
           TmpBytes(OrphanFiles(staging, alive)))
  }

  // -- Reports -----------------------------------------------------------------------------------

  /** What `compact` reports about one directory, dry or real. */
  ghost function ReportOf(schedule: Schedule, f: Files, pins: map<string, PinFile>, staging: map<string, TmpFile>,
                          alive: set<nat>, head: nat, dryRun: bool): Report
    requires ValidSchedule(schedule)
  {
    var live := LiveGens(pins, alive);
    Report(Outcome(schedule, f, live, head), TriageOf(staging, alive), live,
           if dryRun then {} else StaleNames(pins, alive), if dryRun then StaleNames(pins, alive) else {}, !dryRun)
  }

  /** A dry run foretells the real one: removals, bytes, staging and the pins that will be reaped. */
  lemma DryRunForetells(schedule: Schedule, f: Files, pins: map<string, PinFile>, staging: map<string, TmpFile>,
                        alive: set<nat>, head: nat)
    requires ValidSchedule(schedule)
    ensures var dry := ReportOf(schedule, f, pins, staging, alive, head, true);
      var run := ReportOf(schedule, f, pins, staging, alive, head, false);
      && dry.accounts == run.accounts && dry.triage == run.triage && dry.pinned == run.pinned
      && dry.wouldReap == run.reaped
      && run.accounts.reclaimedBytes == run.accounts.bytesBefore - run.accounts.bytesAfter
  {
    ProjectionIsExact(schedule, f, LiveGens(pins, alive), head);
  }

  /** A report, field by field: the generations it names ... */
  lemma ReportNamesGenerations(schedule: Schedule, f: Files, pins: map<string, PinFile>, staging: map<string, TmpFile>,
                               alive: set<nat>, head: nat, dryRun: bool)
    requires ValidSchedule(schedule)
    ensures var r := ReportOf(schedule, f, pins, staging, alive, head, dryRun); var a := r.accounts;
      && (forall g :: g in r.pinned <==>
            exists name :: name in pins && pins[name].gen == g && g < 1_000_000 && pins[name].pid in alive)
      && (forall g :: g in a.removed <==> Takes(schedule, f.gens.Keys, r.pinned, head, g))
      && StrictlyAscending(a.removed)
      && (forall g :: g in a.retained <==> g in f.gens && g < 1_000_000 && g < head && g !in a.removed)
      && (forall g :: g in a.newer <==> g in f.gens && head < g < 1_000_000)
  {
    var live := LiveGens(pins, alive);
    ProjectionIsExact(schedule, f, live, head);
    forall g ensures g in Plan(schedule, f, live, head) <==> Takes(schedule, f.gens.Keys, live, head, g) {
      VictimsExact(schedule, f.gens.Keys, live, head, g);
    }
    PlanIsVisible(schedule, f, live, head);
  }

  /** ... its counts, bytes and quotients ... */
  lemma ReportCounts(schedule: Schedule, f: Files, pins: map<string, PinFile>, staging: map<string, TmpFile>,
                     alive: set<nat>, head: nat, dryRun: bool)
    requires ValidSchedule(schedule)
    ensures var r := ReportOf(schedule, f, pins, staging, alive, head, dryRun); var a := r.accounts;
      && a.generationsBefore == |set g | g in f.gens && g < 1_000_000|
      && a.generationsAfter == a.generationsBefore - |a.removed|
      && a.bytesBefore - a.bytesAfter == a.reclaimedBytes
      && (a.amplificationBefore.Some? <==> head in f.gens && head < 1_000_000 && f.gens[head] > 0)
      && (a.amplificationBefore.Some? ==>
            && a.amplificationBefore.value == Ratio(a.bytesBefore, f.gens[head])
            && a.amplificationAfter == Some(Ratio(a.bytesAfter, f.gens[head])))
  {
    var live := LiveGens(pins, alive);
    ProjectionIsExact(schedule, f, live, head);
    VisibleCount(f.gens);
    PlanIsVisible(schedule, f, live, head);
    TotalOfRest(Visible(f.gens), Plan(schedule, f, live, head));
  }

  /** ... and the staging files and pins. */
  lemma ReportNamesFiles(schedule: Schedule, f: Files, pins: map<string, PinFile>, staging: map<string, TmpFile>,
                         alive: set<nat>, head: nat, dryRun: bool)
    requires ValidSchedule(schedule)
    ensures var r := ReportOf(schedule, f, pins, staging, alive, head, dryRun); var t := r.triage;
      && (forall name :: name in t.orphans <==>
            && name in staging
            && (staging[name].kind in {HeadTmp, ManifestTmp}
                || exists pid :: pid !in alive && staging[name].kind == WriterTmp(pid)))
      && (forall name :: name in t.skippedLive <==>
            name in staging && staging[name].kind.WriterTmp? && staging[name].kind.pid in alive)
      && (forall name :: name in t.skippedUnknown <==> name in staging && staging[name].kind == UnknownTmp)
    ensures var r := ReportOf(schedule, f, pins, staging, alive, head, dryRun);
      && (forall name :: name in r.reaped <==>
            !dryRun && name in pins && pins[name].gen < 1_000_000 && pins[name].pid !in alive)
      && (forall name :: name in r.wouldReap <==>
            dryRun && name in pins && pins[name].gen < 1_000_000 && pins[name].pid !in alive)
      && r.manifest == !dryRun
  {
  }

  lemma VisibleCount(gens: map<nat, nat>)
    ensures |Visible(gens)| == |set g | g in gens && g < 1_000_000|
  {
    assert Visible(gens).Keys == set g | g in gens && g < 1_000_000;
    assert |Visible(gens).Keys| == |Visible(gens)|;
  }

  lemma PlanIsVisible(schedule: Schedule, f: Files, live: set<nat>, head: nat)
    requires ValidSchedule(schedule)
    ensures var v := Plan(schedule, f, live, head); StrictlyAscending(v) && forall g :: g in v ==> g in Visible(f.gens)
  {
  }

  /** The victims exactly as the source computes them. */
  method ChooseVictims(schedule: Schedule, listed: set<nat>, live: set<nat>, head: nat) returns (victims: seq<nat>)
    requires ValidSchedule(schedule) && forall g :: g in listed ==> Listable(g)
    ensures victims == Victims(schedule, listed, live, head)
  {
    var below := Sorted(set g | g in listed && g < head);
    victims := [];
    for k := 0 to |below|
      invariant StrictlyAscending(victims)
      invariant forall g :: g in victims <==> g in below[..k] && g !in live && Eligible(schedule, g)
    {
      assert below[..k + 1] == below[..k] + [below[k]];
      if below[k] !in live && Eligible(schedule, below[k]) {
        assert forall j :: 0 <= j < |victims| ==> victims[j] in below[..k];
        victims := victims + [below[k]];
      }
    }
    assert below[..|below|] == below;
    AscendingUnique(victims, Candidates(schedule, listed, live, head));
    if schedule.KeepRecent? {
      victims := victims[..if |victims| > schedule.keep then |victims| - schedule.keep else 0];
    }
  }

  /** Only what is listed matters to the choice. */
  lemma VisiblePlan(schedule: Schedule, f: Files, live: set<nat>, head: nat)
    requires ValidSchedule(schedule)
    ensures Victims(schedule, Visible(f.gens).Keys, live, head) == Plan(schedule, f, live, head)
  {
    AscendingUnique(Candidates(schedule, Visible(f.gens).Keys, live, head),
                    Candidates(schedule, f.gens.Keys, live, head));
  }

  /** The accounts a dry run computes without touching a file. */
  function Projected(victims: seq<nat>, sizes: map<nat, nat>, before: nat, victimBytes: nat, head: nat): Accounts
    requires victimBytes <= before && |victims| <= |sizes|
  {
    Accounts(victims, BelowHead(sizes, head) - Members(victims), AboveHead(sizes, head), |sizes|, |sizes| - |victims|,
             before, before - victimBytes, victimBytes,
             Amplification(before, sizes, head), Amplification(before - victimBytes, sizes, head))
  }

  lemma ProjectedIsRecount(victims: seq<nat>, sizes: map<nat, nat>, head: nat)
    requires StrictlyAscending(victims) && forall g :: g in victims ==> g in sizes && g < head
    ensures SizeOf(sizes, victims) <= Total(sizes) && |victims| <= |sizes|
    ensures AccountsOf(victims, sizes, sizes - Members(victims), head)
         == Projected(victims, sizes, Total(sizes), SizeOf(sizes, victims), head)
  {
    TotalOfRest(sizes, victims);
    CountOfRest(sizes, victims);
    PartsOfRest(sizes, victims, head);
    SameAccounts(victims, sizes, sizes - Members(victims), head);
  }

  lemma SameAccounts(victims: seq<nat>, sizes: map<nat, nat>, post: map<nat, nat>, head: nat)
    requires forall g :: g in victims ==> g in sizes
    requires BelowHead(post, head) == BelowHead(sizes, head) - Members(victims)
    requires AboveHead(post, head) == AboveHead(sizes, head) && |post| == |sizes| - |victims|
    requires Total(sizes) == SizeOf(sizes, victims) + Total(post)
    ensures AccountsOf(victims, sizes, post, head)
         == Projected(victims, sizes, Total(sizes), SizeOf(sizes, victims), head)
  {
  }

  lemma ProjectedIsOutcome(schedule: Schedule, f: Files, live: set<nat>, head: nat)
    requires ValidSchedule(schedule)
    ensures var v, sizes := Plan(schedule, f, live, head), Visible(f.gens);
      && SizeOf(sizes, v) <= Total(sizes) && |v| <= |sizes|
      && Outcome(schedule, f, live, head) == Projected(v, sizes, Total(sizes), SizeOf(sizes, v), head)
  {
    var v, sizes := Plan(schedule, f, live, head), Visible(f.gens);
    assert Visible(FullRun(schedule, f, live, head).gens) == sizes - Members(v);
    ProjectedIsRecount(v, sizes, head);
  }

  /** The accounts of a real run, from what it measured. */
  function Measured(removed: seq<nat>, sizes: map<nat, nat>, post: map<nat, nat>, before: nat, after: nat,
                    head: nat): Accounts
  {
    Accounts(removed, BelowHead(sizes, head) * post.Keys, AboveHead(post, head), |sizes|, |post|, before, after,
             before - after, Amplification(before, sizes, head), Amplification(after, sizes, head))
  }

  /** What the real run measures before and after is its outcome. */
  lemma RunMatchesOutcome(schedule: Schedule, f: Files, live: set<nat>, head: nat, sizes: map<nat, nat>,
                          post: map<nat, nat>)
    requires ValidSchedule(schedule)
    requires sizes == Visible(f.gens) && post == Visible(FullRun(schedule, f, live, head).gens)
    ensures Outcome(schedule, f, live, head)
         == Measured(Plan(schedule, f, live, head), sizes, post, Total(sizes), Total(post), head)
  {
    assert post == sizes - Members(Plan(schedule, f, live, head));
    Recounted(Plan(schedule, f, live, head), sizes, post, head);
  }

  lemma Recounted(victims: seq<nat>, before: map<nat, nat>, after: map<nat, nat>, head: nat)
    requires StrictlyAscending(victims) && (forall g :: g in victims ==> g in before)
    requires after == before - Members(victims)
    ensures AccountsOf(victims, before, after, head)
         == Measured(victims, before, after, Total(before), Total(after), head)
  {
    TotalOfRest(before, victims);
    RetainedIsBelow(before, after, head);
    SameMeasure(victims, before, after, head);
  }

  lemma SameMeasure(victims: seq<nat>, before: map<nat, nat>, after: map<nat, nat>, head: nat)
    requires forall g :: g in victims ==> g in before
    requires BelowHead(after, head) == BelowHead(before, head) * after.Keys
    requires Total(before) == SizeOf(before, victims) + Total(after)
    ensures AccountsOf(victims, before, after, head)
         == Measured(victims, before, after, Total(before), Total(after), head)
  {
  }

  lemma RetainedIsBelow(sizes: map<nat, nat>, post: map<nat, nat>, head: nat)
    requires post.Keys <= sizes.Keys
    ensures BelowHead(post, head) == BelowHead(sizes, head) * post.Keys
  {
  }

  /** Reaping takes away no live pin. */
  lemma ReapKeepsLive(pins: map<string, PinFile>, alive: set<nat>)
    ensures LiveGens(pins - StaleNames(pins, alive), alive) == LiveGens(pins, alive)
  {
    var left := pins - StaleNames(pins, alive);
    forall g | g in LiveGens(pins, alive) ensures g in LiveGens(left, alive) {
      var name :| name in pins && Listable(pins[name].gen) && pins[name].pid in alive && pins[name].gen == g;
      assert name in left && left[name] == pins[name];
    }
  }

  /** One more staging file, sorted by its kind. */
  function Sift(t: Triage, name: string, file: TmpFile, alive: set<nat>): Triage {
    if Orphan(file, alive) then t.(orphans := t.orphans + {name}, orphanBytes := t.orphanBytes + file.size)
    else if file.kind.WriterTmp? then t.(skippedLive := t.skippedLive + {name})
    else if file.kind.UnknownTmp? then t.(skippedUnknown := t.skippedUnknown + {name})
    else t
  }

  lemma TriageAdd(done: map<string, TmpFile>, name: string, file: TmpFile, alive: set<nat>)
    requires name !in done
    ensures TriageOf(done[name := file], alive) == Sift(TriageOf(done, alive), name, file, alive)
  {
    var more := done[name := file];
    if Orphan(file, alive) {
      assert OrphanFiles(more, alive) == OrphanFiles(done, alive)[name := file];
      TmpBytesRemove(OrphanFiles(more, alive), name);
      assert OrphanFiles(more, alive) - {name} == OrphanFiles(done, alive);
    } else {
      assert OrphanFiles(more, alive) == OrphanFiles(done, alive);
    }
    SkippedAdd(done, name, file, alive);
  }

  lemma SkippedAdd(done: map<string, TmpFile>, name: string, file: TmpFile, alive: set<nat>)
    requires name !in done
    ensures var t, u := TriageOf(done, alive), TriageOf(done[name := file], alive);
      && u.skippedLive == (if file.kind.WriterTmp? && file.kind.pid in alive
                           then t.skippedLive + {name} else t.skippedLive)
      && u.skippedUnknown == (if file.kind.UnknownTmp? then t.skippedUnknown + {name} else t.skippedUnknown)
  {
    var more := done[name := file];
    assert forall n :: n in more <==> n == name || n in done;
    assert forall n :: n in done ==> n != name && more[n] == done[n];
  }

  class Store {
    var head: Option<nat>
    var files: Files
    var pins: map<string, PinFile>
    var staging: map<string, TmpFile>

    constructor (directory: Files, head: Option<nat>)
      ensures files == directory && this.head == head && pins == map[] && staging == map[]
    {
      files, this.head, pins, staging := directory, head, map[], map[];
    }

    method StalePinNames(alive: set<nat>) returns (names: set<string>)
      ensures names == StaleNames(pins, alive)
    {
      names := {};
      var todo := pins.Keys;
      while todo != {}
        invariant todo <= pins.Keys
        invariant names == set name | name in pins && name !in todo && Stale(pins[name], alive)
      {
        var name :| name in todo;
        if Stale(pins[name], alive) { names := names + {name}; }
        todo := todo - {name};
      }
    }

    /** Delete the listed pins of dead processes, and only those. */
    method ReapStalePins(alive: set<nat>) returns (removed: set<string>)
      modifies this`pins
      ensures removed == StaleNames(old(pins), alive) && pins == old(pins) - removed
      ensures LiveGens(pins, alive) == LiveGens(old(pins), alive)
    {
      removed := {};
      var todo := StalePinNames(alive);
      while todo != {}
        invariant todo !! removed && todo + removed == StaleNames(old(pins), alive)
        invariant pins == old(pins) - removed
      {
        var name :| name in todo;
        pins := pins - {name};
        removed := removed + {name};
        todo := todo - {name};
      }
      ReapKeepsLive(old(pins), alive);
    }

    /** The record-first deletion loop, surviving `ops` file operations. */
    method DeleteVictims(victims: seq<nat>, ops: nat) returns (removed: seq<nat>, died: bool)
      requires StrictlyAscending(victims) && forall g :: g in victims ==> g in files.gens
      modifies this`files
      ensures files == AfterOperations(old(files), victims, ops)
      ensures died <==> ops < 2 * |victims|
      ensures !died ==> removed == victims
    {
      removed, died := [], false;
      ghost var start := files;
      NoProgress(start, victims);
      for k := 0 to |victims|
        invariant 2 * k <= ops && !died
        invariant removed == victims[..k]
        invariant files == Progress(start, victims, k, k)
      {
        OneMore(start, victims, k);
        if ops == 2 * k { return removed, true; }
        files := Files(files.gens, files.journal + {victims[k]});
        if ops == 2 * k + 1 { return removed, true; }
        files := Files(files.gens - {victims[k]}, files.journal);
        removed := removed + [victims[k]];
      }
    }

    /** `reclaim(keep_recent)`: unpinned generations below HEAD, keeping the newest `keep`. */
    method Reclaim(keep: nat, alive: set<nat>, ops: nat)
      returns (removed: seq<nat>, reaped: set<string>, pinned: set<nat>, died: bool)
      modifies this`files, this`pins
      ensures head == None ==>
        files == old(files) && pins == old(pins) && removed == [] && reaped == {} && pinned == {} && !died
      ensures head.Some? ==>
        && pinned == LiveGens(old(pins), alive) && reaped == StaleNames(old(pins), alive) && pins == old(pins) - reaped
        && files == KilledRun(KeepRecent(keep), old(files), pinned, head.value, ops)
        && (!died ==> removed == Plan(KeepRecent(keep), old(files), pinned, head.value))
        && (!died ==> files == FullRun(KeepRecent(keep), old(files), pinned, head.value))
    {
      if head == None { return [], {}, {}, false; }
      reaped := ReapStalePins(alive);
      pinned := PinnedGenerations(alive);
      VisiblePlan(KeepRecent(keep), files, pinned, head.value);
      var victims := ChooseVictims(KeepRecent(keep), Visible(files.gens).Keys, pinned, head.value);
      removed, died := DeleteVictims(victims, ops);
      if !died { EnoughOperations(old(files), victims, ops); }
    }

    method PinnedGenerations(alive: set<nat>) returns (live: set<nat>)
      ensures live == LiveGens(pins, alive)
    {
      live := {};
      var todo := pins.Keys;
      while todo != {}
        invariant todo <= pins.Keys
        invariant live == (set name | name in pins && name !in todo && Listable(pins[name].gen) &&
                           pins[name].pid in alive :: pins[name].gen)
      {
        var name :| name in todo;
        if Listable(pins[name].gen) && pins[name].pid in alive { live := live + {pins[name].gen}; }
        todo := todo - {name};
      }
    }

    /** Remove what no running writer can own, skip and report the rest. */
    method TriageStaging(alive: set<nat>) returns (t: Triage)
      ensures t == TriageOf(staging, alive)
    {
      t := Triage({}, {}, {}, 0);
      var todo := staging.Keys;
      ghost var done: map<string, TmpFile> := map[];
      assert OrphanFiles(done, alive) == map[];
      while todo != {}
        invariant t == TriageOf(done, alive)
        invariant done.Keys == staging.Keys - todo && todo <= staging.Keys
        invariant forall n :: n in done ==> done[n] == staging[n]
      {
        var name :| name in todo;
        TriageAdd(done, name, staging[name], alive);
        t := Sift(t, name, staging[name], alive);
        done := done[name := staging[name]];
        todo := todo - {name};
      }
      assert done == staging;
    }

    /** `compact(dry_run=True)`: nothing changes, and the report is the one the real run would give. */
    method Preview(schedule: Schedule, alive: set<nat>) returns (report: Report)
      requires ValidSchedule(schedule)
      ensures head == None ==> report == NothingPublished
      ensures head.Some? ==> report == ReportOf(schedule, files, pins, staging, alive, head.value, true)
    {
      if head == None { return NothingPublished; }
      var wouldReap := StalePinNames(alive);
      var live := PinnedGenerations(alive);
      var sizes := Visible(files.gens);
      VisiblePlan(schedule, files, live, head.value);
      var victims := ChooseVictims(schedule, sizes.Keys, live, head.value);
      var triage := TriageStaging(alive);
      var before := SumSizes(sizes);
      var victimBytes := SumVictims(sizes, victims);
      ProjectedIsOutcome(schedule, files, live, head.value);
      var accounts := Projected(victims, sizes, before, victimBytes, head.value);
      report := Report(accounts, triage, live, {}, wouldReap, false);
    }

    /** `compact`: the real run leaves `FullRun`, or `KilledRun` when the process dies on the way. */
    method Compact(schedule: Schedule, alive: set<nat>, ops: nat) returns (report: Report, died: bool)
      requires ValidSchedule(schedule)
      modifies this`files, this`pins, this`staging
      ensures head == None ==>
        report == NothingPublished && files == old(files) && pins == old(pins) && staging == old(staging) && !died
      ensures head.Some? ==>
        && files == KilledRun(schedule, old(files), LiveGens(old(pins), alive), head.value, ops)
        && pins == old(pins) - StaleNames(old(pins), alive)
      ensures head.Some? && died ==> staging == old(staging)
      ensures head.Some? && !died ==>
        && files == FullRun(schedule, old(files), LiveGens(old(pins), alive), head.value)
        && report == ReportOf(schedule, old(files), old(pins), old(staging), alive, head.value, false)
        && staging == old(staging) - TriageOf(old(staging), alive).orphans
    {
      if head == None { return NothingPublished, false; }
      ghost var f := files;
      var reaped := ReapStalePins(alive);
      var live := PinnedGenerations(alive);
      var sizes := Visible(files.gens);
      VisiblePlan(schedule, files, live, head.value);
      var victims := ChooseVictims(schedule, sizes.Keys, live, head.value);
      var triage := TriageStaging(alive);
      var before := SumSizes(sizes);
      var removed;
      removed, died := DeleteVictims(victims, ops);
      if died { return NothingPublished, true; }
      EnoughOperations(f, victims, ops);
      staging := staging - triage.orphans;
      var post := Visible(files.gens);
      var after := SumSizes(post);
      RunMatchesOutcome(schedule, f, live, head.value, sizes, post);
      report := Report(Measured(removed, sizes, post, before, after, head.value), triage, live, reaped, {}, true);
    }
  }

  method SumVictims(sizes: map<nat, nat>, victims: seq<nat>) returns (sum: nat)
    requires forall g :: g in victims ==> g in sizes
    ensures sum == SizeOf(sizes, victims)
  {
    sum := 0;
    for k := 0 to |victims|
      invariant sum == SizeOf(sizes, victims[..k])
    {
      assert victims[..k + 1][..k] == victims[..k];
      sum := sum + sizes[victims[k]];
    }
    assert victims[..|victims|] == victims;
  }

  lemma NoProgress(f: Files, victims: seq<nat>)
    ensures Progress(f, victims, 0, 0) == f
  {
    assert victims[..0] == [];
    assert f.gens - {} == f.gens;
  }

  lemma OneMore(f: Files, victims: seq<nat>, k: nat)
    requires k < |victims|
    ensures var v, a := victims[k], Progress(f, victims, k, k);
      && Progress(f, victims, k, k + 1) == Files(a.gens, a.journal + {v})
      && Progress(f, victims, k + 1, k + 1) == Files(a.gens - {v}, a.journal + {v})
  {
    assert victims[..k + 1] == victims[..k] + [victims[k]];
    assert Members(victims[..k + 1]) == Members(victims[..k]) + {victims[k]};
    RemoveTwice(f.gens, Members(victims[..k]), {victims[k]});
  }

  lemma EnoughOperations(f: Files, victims: seq<nat>, ops: nat)
    requires ops >= 2 * |victims|
    ensures AfterOperations(f, victims, ops) == Files(f.gens - Members(victims), f.journal + Members(victims))
  {
    assert victims[..|victims|] == victims;
  }
}
