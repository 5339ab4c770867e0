/** `Store.check`: what an operator is told about a directory. */
module StoreCheck {
  import opened Options
  import opened StoreDisk
  import opened Retention
  import opened StoreMachine
  import opened StoreScenarios
  import opened StoreSteps
  import opened StoreTheorems

  datatype HeadFile = NoHead | Malformed | Number(gen: nat)

  datatype GenRead = Valid | Unreadable | HashMismatch | NumberMismatch

  /** Everything `check` reads: HEAD, the generation files, the journal, staging and the manifest. */
  datatype View = View(head: HeadFile, gens: map<nat, GenRead>, reclaimed: set<nat>,
                       staging: seq<StagingFile>, manifestCorrupt: bool)

  datatype Issue =
    | HeadMissing | HeadMalformed | HeadDangling(gen: nat)
    | GenUnreadable(gen: nat) | GenHashMismatch(gen: nat) | GenNumberMismatch(gen: nat)
    | GenGap(gen: nat) | NewerThanHead(gen: nat) | OrphanTmp(file: StagingFile) | ManifestCorrupt

  /** The situations the issue codes stand for. */
  predicate Holds(v: View, issue: Issue) {
    match issue
    case HeadMissing => v.head.NoHead?
    case HeadMalformed => v.head.Malformed?
    case HeadDangling(g) => v.head == Number(g) && g !in v.gens
    case GenUnreadable(g) => g in v.gens && v.gens[g] == Unreadable
    case GenHashMismatch(g) => g in v.gens && v.gens[g] == HashMismatch
    case GenNumberMismatch(g) => g in v.gens && v.gens[g] == NumberMismatch
    case GenGap(g) => v.head.Number? && g <= v.head.gen && g !in v.gens && g !in v.reclaimed
    case NewerThanHead(g) => v.head.Number? && g > v.head.gen && g in v.gens && v.gens[g] == Valid
    case OrphanTmp(file) => file in v.staging
    case ManifestCorrupt => v.manifestCorrupt
  }

  predicate PerFile(issue: Issue) {
    issue.GenUnreadable? || issue.GenHashMismatch? || issue.GenNumberMismatch?
  }

  predicate AgainstHead(issue: Issue) {
    issue.HeadDangling? || issue.GenGap? || issue.NewerThanHead?
  }

  /** Validate every generation file, in order. */
  method CheckFiles(v: View) returns (issues: seq<Issue>, valid: seq<nat>)
    ensures forall issue :: issue in issues <==> Holds(v, issue) && PerFile(issue)
    ensures forall g :: g in valid <==> g in v.gens && v.gens[g] == Valid
  {
    issues, valid := [], [];
    var names := Sorted(v.gens.Keys);
    for k := 0 to |names|
      invariant forall issue :: issue in issues <==> Holds(v, issue) && PerFile(issue) && issue.gen in names[..k]
      invariant forall g :: g in valid <==> g in names[..k] && v.gens[g] == Valid
    {
      var g := names[k];
      assert names[..k + 1] == names[..k] + [g];
      assert g in names;
      match v.gens[g]
      case Valid => valid := valid + [g];
      case Unreadable => issues := issues + [GenUnreadable(g)];
      case HashMismatch => issues := issues + [GenHashMismatch(g)];
      case NumberMismatch => issues := issues + [GenNumberMismatch(g)];
    }
    assert names[..|names|] == names;
  }

  /** Dangling HEAD, unexplained gaps below it, leftovers above it. */
  method CheckHead(v: View, valid: seq<nat>) returns (issues: seq<Issue>)
    requires v.head.Number?
    requires forall g :: g in valid <==> g in v.gens && v.gens[g] == Valid
    ensures forall issue :: issue in issues <==> Holds(v, issue) && AgainstHead(issue)
  {
    var head := v.head.gen;
    issues := if head !in v.gens then [HeadDangling(head)] else [];
    for n := 0 to head + 1
      invariant forall issue :: issue in issues <==>
        Holds(v, issue) && (issue.HeadDangling? || (issue.GenGap? && issue.gen < n))
    {
      if n !in v.reclaimed && n !in v.gens {
        issues := issues + [GenGap(n)];
      }
    }
    for k := 0 to |valid|
      invariant forall issue :: issue in issues <==>
        Holds(v, issue) && (issue.HeadDangling? || issue.GenGap? || (issue.NewerThanHead? && issue.gen in valid[..k]))
    {
      assert valid[..k + 1] == valid[..k] + [valid[k]];
      assert valid[k] in valid;
      if valid[k] > head {
        issues := issues + [NewerThanHead(valid[k])];
      }
    }
    assert valid[..|valid|] == valid;
  }

  /** A healthy directory: HEAD names a listed file, every listed file is valid and none is above HEAD, what is missing
      below HEAD was reclaimed, and nothing else is lying around. */
  ghost predicate Healthy(v: View) {
    && v.head.Number? && v.head.gen in v.gens
    && (forall g :: g in v.gens ==> v.gens[g] == Valid && g <= v.head.gen)
    && (forall g: nat :: g < v.head.gen && g !in v.gens ==> g in v.reclaimed)
    && v.staging == [] && !v.manifestCorrupt
  }

  /** The directory is healthy exactly when no situation holds. */
  lemma HealthyIffNothingHolds(v: View)
    ensures Healthy(v) <==> forall issue :: !Holds(v, issue)
  {
    if forall issue :: !Holds(v, issue) {
      assert !Holds(v, HeadMissing) && !Holds(v, HeadMalformed) && !Holds(v, ManifestCorrupt);
      assert !Holds(v, HeadDangling(v.head.gen));
      forall g | g in v.gens ensures v.gens[g] == Valid && g <= v.head.gen {
        assert !Holds(v, GenUnreadable(g)) && !Holds(v, GenHashMismatch(g)) && !Holds(v, GenNumberMismatch(g));
        assert !Holds(v, NewerThanHead(g));
      }
      forall g: nat | g < v.head.gen && g !in v.gens ensures g in v.reclaimed {
        assert !Holds(v, GenGap(g));
      }
      if v.staging != [] {
        assert Holds(v, OrphanTmp(v.staging[0]));
      }
    }
  }

  /** `check` reports an issue exactly when its situation holds, and nothing exactly for a healthy directory. */
  method Check(v: View) returns (issues: seq<Issue>, valid: seq<nat>)
    ensures forall issue :: issue in issues <==> Holds(v, issue)
    ensures forall g :: g in valid <==> g in v.gens && v.gens[g] == Valid
    ensures issues == [] <==> Healthy(v)
    ensures HeadMissing in issues <==> v.head == NoHead
    ensures HeadMalformed in issues <==> v.head == Malformed
    ensures forall g :: HeadDangling(g) in issues <==> v.head == Number(g) && g !in v.gens
    ensures forall g :: GenUnreadable(g) in issues <==> g in v.gens && v.gens[g] == Unreadable
    ensures forall g :: GenHashMismatch(g) in issues <==> g in v.gens && v.gens[g] == HashMismatch
    ensures forall g :: GenNumberMismatch(g) in issues <==> g in v.gens && v.gens[g] == NumberMismatch
    ensures forall file :: OrphanTmp(file) in issues <==> file in v.staging
    ensures ManifestCorrupt in issues <==> v.manifestCorrupt
  {
    issues := if v.head.Malformed? then [HeadMalformed] else if v.head.NoHead? then [HeadMissing] else [];
    var perFile, against: seq<Issue>;
    perFile, valid := CheckFiles(v);
    against := [];
    if v.head.Number? {
      against := CheckHead(v, valid);
    }
    var leftovers := CheckLeftovers(v);
    issues := issues + perFile + against + leftovers;
    ReportSays(v, issues);
  }

  /** Staging files, then the manifest. */
  method CheckLeftovers(v: View) returns (issues: seq<Issue>)
    ensures forall issue :: issue in issues <==> Holds(v, issue) && (issue.OrphanTmp? || issue.ManifestCorrupt?)
  {
    issues := [];
    for k := 0 to |v.staging|
      invariant forall issue :: issue in issues <==> issue.OrphanTmp? && issue.file in v.staging[..k]
    {
      assert v.staging[..k + 1] == v.staging[..k] + [v.staging[k]];
      issues := issues + [OrphanTmp(v.staging[k])];
    }
    assert v.staging[..|v.staging|] == v.staging;
    if v.manifestCorrupt {
      issues := issues + [ManifestCorrupt];
    }
  }

  /** A report of exactly what holds, code by code. */
  lemma ReportSays(v: View, issues: seq<Issue>)
    requires forall issue :: issue in issues <==> Holds(v, issue)
    ensures issues == [] <==> Healthy(v)
    ensures HeadMissing in issues <==> v.head == NoHead
    ensures HeadMalformed in issues <==> v.head == Malformed
    ensures forall g :: HeadDangling(g) in issues <==> v.head == Number(g) && g !in v.gens
    ensures forall g :: GenUnreadable(g) in issues <==> g in v.gens && v.gens[g] == Unreadable
    ensures forall g :: GenHashMismatch(g) in issues <==> g in v.gens && v.gens[g] == HashMismatch
    ensures forall g :: GenNumberMismatch(g) in issues <==> g in v.gens && v.gens[g] == NumberMismatch
    ensures forall file :: OrphanTmp(file) in issues <==> file in v.staging
    ensures ManifestCorrupt in issues <==> v.manifestCorrupt
  {
    HealthyIffNothingHolds(v);
    assert issues != [] ==> issues[0] in issues;
  }

  // -- What `check` says about reachable states --------------------------------------------------

  /** The generations a listing of the directory shows: present, and named with six digits. */
  function ListedGens(d: Disk): set<nat> {
    set g | g in d.OnDisk() && Listable(g)
  }

  /** What `check` reads in a state of the machine; a file is valid when it carries its own number. */
  ghost predicate Shows(v: View, s: State) {
    && v.head == (if s.disk.head.now.Present? then Number(s.disk.head.now.val) else NoHead)
    && v.gens.Keys == ListedGens(s.disk)
    && (forall g :: g in v.gens && s.disk.GenSlot(g).now.val.generation == g ==> v.gens[g] == Valid)
    && v.reclaimed == Reclaimed(s.disk.journal.now)
    && !v.manifestCorrupt
  }

  predicate LostGeneration(issue: Issue) {
    issue.HeadDangling? || issue.GenGap?
  }

  /** On reachable states only an empty store, generations just above HEAD, leftover staging, and what the
      six-digit listing hides are ever reported. */
  lemma ReachableStatesPassCheck(level: Level, run: seq<State>, i: nat, v: View, issue: Issue)
    requires IsRun(level, run) && i < |run| && Shows(v, run[i]) && Holds(v, issue)
    ensures || (issue == HeadMissing && run[i].log == [])
            || (issue.NewerThanHead? && v.head.Number? &&
                v.head.gen < issue.gen <= v.head.gen + (if run[i].crashed then 2 else 1))
            || issue.OrphanTmp?
            || (LostGeneration(issue) && issue.gen >= LISTED)
  {
    RunInv(level, run, i);
    var d := run[i].disk;
    assert forall g: nat :: g in v.gens <==> d.Has(g) && Listable(g);
  }

  /** `check` never cries wolf about a lost generation exactly as long as HEAD has at most six digits. */
  lemma NoFalseLossIffSixDigits(level: Level, run: seq<State>, i: nat, v: View)
    requires IsRun(level, run) && i < |run| && Shows(v, run[i])
    ensures (forall issue :: Holds(v, issue) ==> !LostGeneration(issue)) <==> (v.head.Number? ==> Listable(v.head.gen))
  {
    if v.head.Number? && !Listable(v.head.gen) {
      assert Holds(v, HeadDangling(v.head.gen));
    } else {
      forall issue | Holds(v, issue) ensures !LostGeneration(issue) {
        ReachableStatesPassCheck(level, run, i, v, issue);
      }
    }
  }

  ghost function ViewOf(s: State): View {
    View(if s.disk.head.now.Present? then Number(s.disk.head.now.val) else NoHead,
         map g | g in ListedGens(s.disk) :: if s.disk.GenSlot(g).now.val.generation == g then Valid else NumberMismatch,
         Reclaimed(s.disk.journal.now), [], false)
  }

  /** The millionth successor of generation 0, published by nothing but ordinary publications, is reported as
      lost twice over. */
  lemma SevenDigitHeadIsReportedLost(level: Level) returns (run: seq<State>, v: View)
    ensures IsRun(level, run) && Shows(v, run[|run| - 1])
    ensures v.head == Number(LISTED) && run[|run| - 1].disk.Has(LISTED)
    ensures Holds(v, HeadDangling(LISTED)) && Holds(v, GenGap(LISTED))
  {
    run := PublishMany(level, LISTED + 1, "");
    HeadNamesAWholeHistory(level, run, |run| - 1);
    v := ViewOf(Last(run));
  }

  /** Removing a generation at or below HEAD behind the store's back is newly reported as a loss exactly when HEAD
      has at most six digits and the generation is HEAD or not in the journal. */
  lemma OutsideRemovalIsReported(level: Level, run: seq<State>, i: nat, v: View, g: nat)
    requires IsRun(level, run) && i < |run| && Shows(v, run[i])
    requires v.head.Number? && g <= v.head.gen && run[i].disk.Has(g)
    ensures var w := v.(gens := v.gens - {g}); var dangling := HeadDangling(v.head.gen);
      (Holds(w, GenGap(g)) || Holds(w, dangling)) && !Holds(v, GenGap(g)) && !Holds(v, dangling)
      <==> Listable(v.head.gen) && (g == v.head.gen || g !in v.reclaimed)
  {
    HeadNamesAWholeHistory(level, run, i);
    RemovedFromView(v, run[i].disk, |run[i].log|, g);
  }

  lemma RemovedFromView(v: View, d: Disk, n: nat, g: nat)
    requires v.gens.Keys == ListedGens(d) && v.reclaimed == Reclaimed(d.journal.now)
    requires v.head.Number? && v.head.gen + 1 == n && g < n && d.Has(g) && d.Has(n - 1)
    requires forall h: nat :: h < n && !d.Has(h) ==> h in v.reclaimed
    ensures var w := v.(gens := v.gens - {g}); var dangling := HeadDangling(v.head.gen);
      (Holds(w, GenGap(g)) || Holds(w, dangling)) && !Holds(v, GenGap(g)) && !Holds(v, dangling)
      <==> Listable(v.head.gen) && (g == v.head.gen || g !in v.reclaimed)
  {
    assert forall h: nat :: h in v.gens <==> d.Has(h) && Listable(h);
  }

  // -- How far above HEAD ----------------------------------------------------------------------------

  /** Without a crash the bound is met: a publisher that dies between its two renames. */
  lemma OneAboveHead(level: Level) returns (run: seq<State>, v: View)
    ensures IsRun(level, run) && Shows(v, run[|run| - 1]) && !run[|run| - 1].crashed
    ensures v.head == Number(0) && Holds(v, NewerThanHead(1))
  {
    run := PublishMany(level, 1, "");
    HeadNamesAWholeHistory(level, run, |run| - 1);
    var file;
    run, file := InterruptedPublish(level, run, 0, Snapshot(1, ""));
    v := ViewOf(Last(run));
  }

  /** After a crash its bound is met too: one publisher dies after its HEAD rename, the next one after its
      generation rename, and the crash takes the HEAD rename back. */
  lemma TwoAboveHead(level: Level) returns (run: seq<State>, v: View)
    requires level.AtLeast(L2)
    ensures IsRun(level, run) && Shows(v, run[|run| - 1]) && run[|run| - 1].crashed
    ensures v.head == Number(0) && Holds(v, NewerThanHead(1)) && Holds(v, NewerThanHead(2))
  {
    var rolled;
    run, rolled := TwoUncertain(level);
    run := RollHeadBack(level, run, rolled);
    v := ViewOf(Last(run));
    assert Last(run).disk.Has(1) && Last(run).disk.Has(2);
  }

  /** Generations 1 and 2 on disk while the HEAD rename to 1 is not yet durable. */
  lemma TwoUncertain(level: Level) returns (run: seq<State>, rolled: Entry<nat>)
    requires level.AtLeast(L2)
    ensures IsRun(level, run) && Last(run).disk.Has(1) && Last(run).disk.Has(2)
    ensures rolled in Last(run).disk.head.Outcomes() && rolled.Present? && rolled.val == 0
    ensures Last(run).disk.GenSlot(1).now.val.generation == 1 && Last(run).disk.GenSlot(2).now.val.generation == 2
  {
    run := PublishMany(level, 1, "");
    HeadNamesAWholeHistory(level, run, |run| - 1);
    run, rolled := UnsyncedHead(level, run);
    run := Extend(level, run, Spawn(1));
    var file;
    run, file := InterruptedPublish(level, run, 1, Snapshot(2, ""));
  }

  /** A crash that keeps every entry as it is except HEAD. */
  lemma RollHeadBack(level: Level, run: seq<State>, head: Entry<nat>) returns (longer: seq<State>)
    requires level.AtLeast(L2) && IsRun(level, run) && head in Last(run).disk.head.Outcomes()
    ensures Continues(level, run, longer) && Last(longer).crashed && Last(longer).disk.head.now == head
    ensures forall g: nat :: Last(longer).disk.GenSlot(g).now == Last(run).disk.GenSlot(g).now
  {
    var d := Last(run).disk;
    var after := Disk(map g | g in d.gens :: Slot(d.gens[g].now, {}), Slot(head, {}), Slot(d.journal.now, {}));
    SurvivesAsIs(d, after, head);
    longer := Crash(level, run, after);
  }

  lemma Crash(level: Level, run: seq<State>, after: Disk) returns (longer: seq<State>)
    requires level.AtLeast(L2) && IsRun(level, run) && Last(run).disk.CrashOutcome(after)
    ensures Continues(level, run, longer) && Last(longer).crashed && Last(longer).disk == after
  {
    longer := Extend(level, run, OsCrash(after, Last(run).tmp));
  }

  /** One committed generation, then a publisher of the next one killed before its final barrier. */
  lemma UnsyncedHead(level: Level, run: seq<State>) returns (longer: seq<State>, rolled: Entry<nat>)
    requires level.AtLeast(L2) && IsRun(level, run) && Quiet(Last(run), 1)
    requires Last(run).disk.Has(0) && Last(run).disk.GenSlot(0).now.val.generation == 0
    requires HeadOf(Last(run).disk.head.now) == Some(0)
    ensures Continues(level, run, longer)
    ensures var u := Last(longer);
      && u.lock == None && |u.log| == 2 && 1 !in u.alive && 1 !in u.dead && HeadOf(u.disk.head.now) == Some(1)
      && u.disk.Has(0) && u.disk.GenSlot(0).now.val.generation == 0
      && u.disk.Has(1) && u.disk.GenSlot(1).now.val.generation == 1
      && rolled in u.disk.head.Outcomes() && rolled.Present? && rolled.val == 0
  {
    var s, snap := Last(run), Snapshot(1, "");
    var r := StartOne(level, run, 0, snap);
    r := PublishUpTo(level, r, s, 0, snap, Staged, HeadFileSynced);
    r, rolled := SwapHead(level, r, s, 0, snap);
    longer := KillPublisher(level, r, s, 0, snap, HeadRenamed);
    SecondNamed(s, Last(r), snap);
  }

  lemma SecondNamed(s: State, t: State, snap: Snapshot)
    requires Quiet(s, 1) && During(s, t, 0, snap, HeadRenamed) && snap.generation == 1
    requires s.disk.Has(0) && s.disk.GenSlot(0).now.val.generation == 0
    ensures |t.log| == 2 && t.alive == {0} && t.dead == {} && HeadOf(t.disk.head.now) == Some(1)
    ensures t.disk.Has(0) && t.disk.GenSlot(0).now.val.generation == 0
    ensures t.disk.Has(1) && t.disk.GenSlot(1).now.val.generation == 1
  {
  }

  /** Before the final barrier the previous HEAD is still a possible outcome of a crash. */
  lemma SwapHead(level: Level, run: seq<State>, s: State, pid: nat, snap: Snapshot)
    returns (longer: seq<State>, rolled: Entry<nat>)
    requires IsRun(level, run) && During(s, Last(run), pid, snap, HeadFileSynced) && s.disk.head.now.Present?
    ensures Continues(level, run, longer) && During(s, Last(longer), pid, snap, HeadRenamed)
    ensures rolled in Last(longer).disk.head.Outcomes() && rolled.Present? && rolled.val == s.disk.head.now.val
  {
    rolled := Last(run).disk.head.now;
    PublishGoesOn(level, s, Last(run), pid, snap, HeadFileSynced);
    longer := Extend(level, run, PubStep(s.nextActor));
  }

  lemma SurvivesAsIs(d: Disk, after: Disk, head: Entry<nat>)
    requires head in d.head.Outcomes()
    requires after == Disk(map g | g in d.gens :: Slot(d.gens[g].now, {}), Slot(head, {}), Slot(d.journal.now, {}))
    ensures d.CrashOutcome(after) && forall g: nat :: after.GenSlot(g).now == d.GenSlot(g).now
  {
    forall g | g in d.gens ensures d.gens[g].Survives(after.gens[g]) {
      assert d.gens[g].now in d.gens[g].Outcomes();
    }
    assert d.journal.now in d.journal.Outcomes();
  }
}
