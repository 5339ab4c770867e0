/** From planning to records: a build that returns normally has computed what a sequential reader would. */
module PipelineResults {
  import opened Collections
  import opened Sorting
  import opened Digest
  import opened Tokens
  import opened Canonical
  import opened FileBuild
  import opened PipelineMachine
  import opened PipelineInvariant
  import opened PipelineSafety

  // -- Planning ------------------------------------------------------------------------------------

  ghost predicate IsPlan(plan: Plan) {
    plan.windows == Windows(plan.file.data) && plan.tokens == Capped(FileTokens(plan.file.data))
  }

  ghost predicate Planned(plans: seq<Plan>) {
    forall f :: 0 <= f < |plans| ==> IsPlan(plans[f])
  }

  function FilesOf(plans: seq<Plan>): seq<File> {
    seq(|plans|, i requires 0 <= i < |plans| => plans[i].file)
  }

  method PlanFile(file: File) returns (plan: Plan)
    ensures IsPlan(plan) && plan.file == file
  {
    var tokens := SplitTokens(file.data);
    plan := Plan(file, Windows(file.data), tokens);
  }

  method PlanAll(files: seq<File>) returns (plans: seq<Plan>)
    ensures Planned(plans) && FilesOf(plans) == files
  {
    plans := [];
    for i := 0 to |files|
      invariant Planned(plans) && |plans| == i && forall j :: 0 <= j < i ==> plans[j].file == files[j]
    {
      var plan := PlanFile(files[i]);
      plans := plans + [plan];
    }
  }

  // -- The programs cover the plans ------------------------------------------------------------------

  ghost predicate JobOfFile(plans: seq<Plan>, f: nat, job: Job)
    requires f < |plans|
  {
    match job
    case LeafJob(g, w) => g == f && w < |plans[f].windows|
    case ValidJob(tok) => tok in plans[f].tokens
    case ClaimJob(tok) => tok in plans[f].tokens
    case SendJob(_) => false
  }

  lemma {:induction false} LeafPutAt(f: nat, from: nat, windows: nat, w: nat)
    requires from <= w < windows
    ensures |LeafPuts(f, from, windows)| == windows - from && LeafPuts(f, from, windows)[w - from] == Put(Leaf(f, w))
    decreases windows - from
  {
    if from < w {
      LeafPutAt(f, from + 1, windows, w);
    } else if from + 1 < windows {
      LeafPutAt(f, from + 1, windows, from + 1);
    }
  }

  lemma ProgramServes(plans: seq<Plan>, f: nat, job: Job)
    requires f < |plans| && JobOfFile(plans, f, job)
    ensures TodoServes(plans, Program(plans, f), job)
  {
    var puts, scan, claims := LeafPuts(f, 0, |plans[f].windows|), [ScanTokens(f)], Claims(plans[f].tokens);
    TodoSplit(plans, [Begin] + puts + scan, claims, job);
    TodoSplit(plans, [Begin] + puts, scan, job);
    TodoSplit(plans, [Begin], puts, job);
    match job
    case LeafJob(_, w) =>
      LeafPutAt(f, 0, |plans[f].windows|, w);
      assert OpServes(plans, puts[w], job);
    case ValidJob(tok) => assert OpServes(plans, scan[0], job);
    case ClaimJob(tok) =>
      var i :| 0 <= i < |plans[f].tokens| && plans[f].tokens[i] == tok;
      assert OpServes(plans, claims[i], job);
  }

  /** Plan `f` is in the program of the producer that starts `q` strides before it. */
  lemma {:induction false} ChunkServes(plans: seq<Plan>, start: nat, n: nat, q: nat, f: nat, job: Job)
    requires n > 0 && f == start + q * n && f < |plans| && JobOfFile(plans, f, job)
    ensures TodoServes(plans, ChunkProgram(plans, start, n), job)
    decreases q
  {
    TodoSplit(plans, Program(plans, start), ChunkProgram(plans, start + n, n), job);
    if q == 0 {
      ProgramServes(plans, f, job);
    } else {
      assert q * n == (q - 1) * n + n;
      ChunkServes(plans, start + n, n, q - 1, f, job);
    }
  }

  lemma FileOfJob(b: Build, board: Board, job: Job) returns (f: nat)
    requires Wanted(b, board, job) && board.submitted == {}
    ensures f < |b.plans| && JobOfFile(b.plans, f, job)
  {
    match job
    case LeafJob(g, _) => f := g;
    case ValidJob(tok) => f :| 0 <= f < |b.plans| && tok in b.plans[f].tokens;
    case ClaimJob(tok) => f :| 0 <= f < |b.plans| && tok in b.plans[f].tokens;
    case SendJob(tok) =>
  }

  lemma InitInv(b: Build, s: State)
    requires Init(b, s)
    ensures Inv(b, s)
  {
    CountZero(Holding, s.consumers);
    forall job | Wanted(b, s.shared.board, job) ensures Tracked(b, s, job) {
      var f := FileOfJob(b, s.shared.board, job);
      var i := f % b.producers;
      ChunkServes(b.plans, i, b.producers, f / b.producers, f, job);
      assert ProducerServes(b.plans, s.producers[i], job);
    }
  }

  lemma {:induction false} RunInv(b: Build, run: seq<State>, i: nat)
    requires IsRun(b, run) && i < |run|
    ensures Inv(b, run[i])
  {
    if i == 0 {
      InitInv(b, run[0]);
    } else {
      RunInv(b, run, i - 1);
      assert StepAt(b, run, i - 1);
      var step :| Enabled(b, run[i - 1], step) && run[i] == Do(b, run[i - 1], step);
      StepKeeps(b, run[i - 1], step);
    }
  }

  // -- Normal return -----------------------------------------------------------------------------

  /** Every window of the file has a leaf, every token a verdict and a digest. */
  ghost predicate CompleteFor(plan: Plan, f: nat, board: Board) {
    && (forall w :: 0 <= w < |plan.windows| ==> (f, w) in board.leaves)
    && (forall tok :: tok in plan.tokens ==> tok in board.valid && tok in board.tokDigests)
  }

  ghost predicate Complete(plans: seq<Plan>, board: Board) {
    forall f :: 0 <= f < |plans| ==> CompleteFor(plans[f], f, board)
  }

  lemma NothingPending(b: Build, s: State, job: Job)
    requires Inv(b, s) && s.main.Assembling? && Wanted(b, s.shared.board, job)
    ensures Settled(s.shared.board, job)
  {
    CountZero(Holding, s.consumers);
    assert forall i :: 0 <= i < |s.producers| ==> s.producers[i].Finished?;
    assert forall i :: 0 <= i < |s.consumers| ==> s.consumers[i].Exited?;
    assert s.shared.queue == [];
  }

  /** In every run, of any queue size, thread counts and interleaving: when the build gets to assembly,
      every planned window and token has been processed, and processed correctly. */
  lemma NormalReturnIsComplete(b: Build, run: seq<State>, i: nat)
    requires IsRun(b, run) && i < |run| && run[i].main.Assembling?
    ensures Complete(b.plans, run[i].shared.board) && BoardOk(b, run[i].shared.board)
  {
    RunInv(b, run, i);
    var s := run[i];
    var board := s.shared.board;
    forall f | 0 <= f < |b.plans| ensures CompleteFor(b.plans[f], f, board) {
      forall w | 0 <= w < |b.plans[f].windows| ensures (f, w) in board.leaves {
        NothingPending(b, s, LeafJob(f, w));
      }
      forall tok | tok in b.plans[f].tokens ensures tok in board.valid && tok in board.tokDigests {
        NothingPending(b, s, ValidJob(tok));
        NothingPending(b, s, ClaimJob(tok));
        if tok in board.submitted { NothingPending(b, s, SendJob(tok)); }
      }
    }
  }

  // -- Assembly ----------------------------------------------------------------------------------

  datatype Assembly = Built(results: seq<FileResult>) | MissingLeaf(file: nat, window: nat) | MissingDigest(file: nat)

  method LeavesOfPlan(plan: Plan, f: nat, board: Board) returns (leaves: seq<WinDigest>, missing: bool)
    ensures missing <==> exists w :: 0 <= w < |plan.windows| && (f, w) !in board.leaves
    ensures missing ==> |leaves| < |plan.windows| && (f, |leaves|) !in board.leaves
    ensures !missing ==> |leaves| == |plan.windows|
    ensures !missing ==> forall w :: 0 <= w < |leaves| ==> (f, w) in board.leaves && leaves[w] == board.leaves[(f, w)]
  {
    leaves := [];
    for w := 0 to |plan.windows|
      invariant |leaves| == w && forall v :: 0 <= v < w ==> (f, v) in board.leaves && leaves[v] == board.leaves[(f, v)]
    {
      if (f, w) !in board.leaves { return leaves, true; }
      leaves := leaves + [board.leaves[(f, w)]];
    }
    missing := false;
  }

  /** The valid tokens of a plan with their digests: from this build, else from the session memo. */
  method TermsOfPlan(k: Kernels, tokens: seq<Bytes>, board: Board) returns (terms: seq<TokenId>, missing: bool)
    requires MemoOk(k, board) && DigestsOk(k, board.tokDigests)
    ensures (forall tok :: tok in tokens ==> tok in board.valid && tok in board.tokDigests) ==>
      !missing && terms == Identified(k, tokens)
    ensures missing ==> exists tok :: tok in tokens && ValidToken(tok) && tok !in board.tokDigests && tok !in board.memo
  {
    terms := [];
    for i := 0 to |tokens|
      invariant (forall tok :: tok in tokens ==> tok in board.valid) ==> terms == Identified(k, tokens[..i])
    {
      var tok := tokens[i];
      assert tokens[..i + 1][..i] == tokens[..i] && tok in tokens;
      if tok in board.valid && board.valid[tok] {
        if tok !in board.tokDigests && tok !in board.memo { return terms, true; }
        terms := terms + [TokenId(tok, if tok in board.tokDigests then board.tokDigests[tok] else board.memo[tok])];
      }
    }
    assert tokens[..|tokens|] == tokens;
    missing := false;
  }

  ghost predicate LeavesFor(k: Kernels, plan: Plan, f: nat, board: Board) {
    forall w: nat :: w < |plan.windows| && (f, w) in board.leaves ==>
      board.leaves[(f, w)] == LeafOf(k.step, k.basis, plan.windows[w])
  }

  lemma BoardLeaves(b: Build, f: nat, board: Board)
    requires f < |b.plans| && BoardOk(b, board)
    ensures LeavesFor(b.k, b.plans[f], f, board)
  {
  }

  method AssembleOne(k: Kernels, plan: Plan, f: nat, board: Board) returns (a: Assembly)
    requires IsPlan(plan) && MemoOk(k, board) && DigestsOk(k, board.tokDigests)
    requires LeavesFor(k, plan, f, board)
    ensures a.Built? || a.MissingLeaf? || a.MissingDigest?
    ensures CompleteFor(plan, f, board) ==> a == Built([ResultOf(k, plan.file)])
    ensures a.MissingLeaf? ==> a.file == f && a.window < |plan.windows| && (f, a.window) !in board.leaves
  {
    var leaves, missing := LeavesOfPlan(plan, f, board);
    if missing { return MissingLeaf(f, |leaves|); }
    var stats := AssembleFile(k.step, k.combine, k.basis, plan.file.data, leaves);
    var terms;
    terms, missing := TermsOfPlan(k, plan.tokens, board);
    if missing { return MissingDigest(f); }
    terms := SortBy(TokenLe, terms);
    if |terms| > TERMS_PER_FILE_CAP { terms := terms[..TERMS_PER_FILE_CAP]; }
    TermsAreCanonical(k, plan.file.data);
    a := Built([FileResult(plan.file.path, plan.file.data, k.kindOf(plan.file.path), stats, terms)]);
  }

  lemma NextResult(k: Kernels, files: seq<File>, f: nat)
    requires f < |files|
    ensures ResultsOf(k, files[..f + 1]) == ResultsOf(k, files[..f]) + [ResultOf(k, files[f])]
  {
    assert files[..f + 1][..f] == files[..f];
  }

  /** `_assemble`: with complete tables both failures are unreachable and the results are the sequential ones. */
  method Assemble(b: Build, board: Board) returns (a: Assembly)
    requires Planned(b.plans) && BoardOk(b, board)
    ensures Complete(b.plans, board) ==> a == Built(ResultsOf(b.k, FilesOf(b.plans)))
  {
    var results: seq<FileResult> := [];
    ghost var files := FilesOf(b.plans);
    for f := 0 to |b.plans|
      invariant Complete(b.plans, board) ==> results == ResultsOf(b.k, files[..f])
    {
      NextResult(b.k, files, f);
      BoardLeaves(b, f, board);
      var one := AssembleOne(b.k, b.plans[f], f, board);
      if !one.Built? { return one; }
      results := results + one.results;
    }
    assert files[..|b.plans|] == files;
    a := Built(results);
  }

  /** The main result: a concurrent build that returns normally yields the record tables of its corpus,
      and a failing assembly is unreachable. */
  method ConcurrentBuild(b: Build, s: State, ghost run: seq<State>, ghost corpus: Corpus)
    returns (docs: seq<Record>, terms: seq<Record>, failed: bool)
    requires IsRun(b, run) && s == run[|run| - 1] && s.main.Assembling?
    requires Planned(b.plans) && Lists(FilesOf(b.plans), corpus)
    ensures !failed && IsDocTable(b.k, corpus, docs) && IsTermTable(b.k, corpus, terms)
  {
    NormalReturnIsComplete(b, run, |run| - 1);
    var a := Assemble(b, s.shared.board);
    docs, terms, failed := [], [], !a.Built?;
    if a.Built? {
      docs, terms := ResultsToRecords(b.k, FilesOf(b.plans), a.results, corpus);
    }
  }

  // -- Without failures ----------------------------------------------------------------------------

  /** No cancellation, no failing kernel call, no dying producer. */
  predicate Smooth(step: Action) {
    !step.Cancel? && !step.ProducerFault? && !step.ConsumerFault?
  }

  ghost predicate Calm(s: State) {
    && !s.shared.flags.stop && !s.shared.flags.cancel && s.shared.flags.errors == [] && !s.main.Raised?
    && (forall i :: 0 <= i < |s.producers| ==> !s.producers[i].Throwing? && !s.producers[i].Stopping?)
    && (forall i :: 0 <= i < |s.consumers| ==> !s.consumers[i].Raising? && !s.consumers[i].Halting?)
  }

  lemma CalmThreads(b: Build, sh: Shared, p: Producer, c: Consumer, done: bool)
    requires !sh.flags.stop && !sh.flags.cancel && sh.flags.errors == []
    ensures !p.Throwing? && !p.Stopping? ==>
      var r := ProducerStep(b, sh, p); r.shared.flags == sh.flags && !r.producer.Throwing? && !r.producer.Stopping?
    ensures !c.Raising? && !c.Halting? ==>
      var r := ConsumerStep(b, sh, done, c); r.shared.flags == sh.flags && !r.consumer.Raising? && !r.consumer.Halting?
  {
  }

  lemma CalmStep(b: Build, s: State, step: Action)
    requires Enabled(b, s, step) && Smooth(step) && Calm(s)
    ensures Calm(Do(b, s, step))
  {
    match step
    case Produce(i) => CalmThreads(b, s.shared, s.producers[i], Idle, false);
    case Consume(i) => CalmThreads(b, s.shared, Finished, s.consumers[i], s.producersDone);
    case _ =>
  }

  ghost predicate SmoothNext(b: Build, s: State, t: State) {
    exists step :: Enabled(b, s, step) && Smooth(step) && t == Do(b, s, step)
  }

  ghost predicate SmoothAt(b: Build, run: seq<State>, i: nat) {
    i + 1 < |run| && SmoothNext(b, run[i], run[i + 1])
  }

  lemma CalmNext(b: Build, s: State, t: State)
    requires Calm(s) && SmoothNext(b, s, t)
    ensures Calm(t)
  {
    var step :| Enabled(b, s, step) && Smooth(step) && t == Do(b, s, step);
    CalmStep(b, s, step);
  }

  /** Scheduling alone never fails a build: without cancellation and faults nothing is raised, however the
      threads interleave. */
  lemma {:induction false} SchedulingNeverFails(b: Build, run: seq<State>, i: nat)
    requires IsRun(b, run) && i < |run| && !run[0].shared.flags.cancel
    requires forall j: nat :: j + 1 < |run| ==> SmoothAt(b, run, j)
    ensures Calm(run[i])
  {
    if i > 0 {
      SchedulingNeverFails(b, run, i - 1);
      assert SmoothAt(b, run, i - 1);
      CalmNext(b, run[i - 1], run[i]);
    } else {
      assert run[0].main == Collecting(0);
    }
  }
}
