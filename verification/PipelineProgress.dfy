/** When the build can still come to an end.  The drain protocol is meant to let the join always terminate; a consumer
    that sees an empty queue and only then sees the producers done can leave an item behind. */
module PipelineProgress {
  import opened Collections
  import opened Sorting
  import opened Digest
  import opened Tokens
  import opened FileBuild
  import opened PipelineMachine
  import opened PipelineInvariant
  import opened PipelineSafety
  import opened PipelineResults

  /** The producers are done, an item is queued, and every consumer has left or is about to. */
  ghost predicate Stranded(s: State) {
    && s.producersDone && s.shared.queue != []
    && forall i :: 0 <= i < |s.consumers| ==> s.consumers[i].Exited? || s.consumers[i].TimedOut?
  }

  predicate Ended(s: State) {
    s.main.Assembling? || s.main.Raised?
  }

  // -- What else holds in reachable states -------------------------------------------------------------

  ghost predicate Staffed(b: Build, s: State) {
    && ValidBuild(b) && |s.consumers| == b.consumers
    && (s.producersDone <==> !s.main.Collecting?)
    && (!s.producersDone ==> forall i :: 0 <= i < |s.consumers| ==> !s.consumers[i].Exited?)
  }

  ghost predicate Live(b: Build, s: State) {
    Inv(b, s) && Staffed(b, s)
  }

  lemma StepStaffs(b: Build, s: State, step: Action)
    requires Staffed(b, s) && Enabled(b, s, step)
    ensures Staffed(b, Do(b, s, step))
  {
  }

  lemma {:induction false} RunLive(b: Build, run: seq<State>, i: nat)
    requires IsRun(b, run) && i < |run|
    ensures Live(b, run[i])
  {
    RunInv(b, run, i);
    if i > 0 {
      RunLive(b, run, i - 1);
      assert StepAt(b, run, i - 1);
      var step :| Enabled(b, run[i - 1], step) && run[i] == Do(b, run[i - 1], step);
      StepStaffs(b, run[i - 1], step);
    }
  }

  // -- A stranded build never ends ---------------------------------------------------------------------

  lemma StrandedJoins(b: Build, s: State)
    requires Live(b, s) && Stranded(s)
    ensures s.main == Joining && FinishedUpTo(s.producers, |s.producers|)
  {
    assert s.shared.unfinished > 0;
  }

  /** Whatever anybody does, a stranded build stays stranded. */
  lemma StrandedForever(b: Build, s: State, step: Action)
    requires Live(b, s) && Stranded(s) && Enabled(b, s, step)
    ensures Stranded(Do(b, s, step))
  {
    StrandedJoins(b, s);
    match step
    case Produce(i) => assert s.producers[i].Finished?;
    case Consume(i) => assert s.consumers[i].Exited? || s.consumers[i].TimedOut?;
    case _ =>
  }

  // -- Otherwise there is always a step that brings the end nearer ----------------------------------------

  const ITEM := 10

  function OpCost(plans: seq<Plan>, op: Op): nat {
    match op
    case Begin => 2
    case Put(_) => 13
    case ScanTokens(f) => 2 + 13 * |TokensOf(plans, f)|
    case ClaimDigest(_) => 17
  }

  function OpsCost(plans: seq<Plan>, todo: seq<Op>): nat {
    if todo == [] then 0 else OpCost(plans, todo[0]) + OpsCost(plans, todo[1..])
  }

  function ProducerCost(plans: seq<Plan>, p: Producer): nat {
    match p
    case Working(todo, armed) => 4 + OpsCost(plans, todo) + if armed then 0 else 1
    case Throwing(_) => 3
    case Stopping => 2
    case Finished => 0
  }

  function ConsumerCost(done: bool, c: Consumer): nat {
    match c
    case Taken(_) => 9
    case Checking(_) => 8
    case Running(_) => 7
    case Storing(_, _) => 6
    case Raising(_) => 6
    case Halting => 5
    case Settling => 4
    case TimedOut => if done then 1 else 3
    case Idle => 2
    case Exited => 0
  }

  function ProducerCosts(plans: seq<Plan>): Producer -> nat {
    p => ProducerCost(plans, p)
  }

  function ConsumerCosts(done: bool): Consumer -> nat {
    c => ConsumerCost(done, c)
  }

  function MainCost(s: State): int {
    match s.main
    case Collecting(n) => |s.producers| - n + |s.consumers| + 3
    case Joining => |s.consumers| + 2
    case Reaping(n) => |s.consumers| - n + 1
    case _ => 0
  }

  function Left(b: Build, s: State): int {
    Sum(ProducerCosts(b.plans), s.producers) + ITEM * |s.shared.queue|
    + Sum(ConsumerCosts(s.producersDone), s.consumers) + MainCost(s)
  }

  lemma {:induction false} OpsCostConcat(plans: seq<Plan>, a: seq<Op>, c: seq<Op>)
    ensures OpsCost(plans, a + c) == OpsCost(plans, a) + OpsCost(plans, c)
  {
    if a == [] {
      assert a + c == c;
    } else {
      OpsCostConcat(plans, a[1..], c);
      assert (a + c)[1..] == a[1..] + c;
    }
  }

  lemma {:induction false} BatchesCost(plans: seq<Plan>, toks: seq<Bytes>)
    ensures OpsCost(plans, Batches(toks)) <= 13 * |toks|
    decreases |toks|
  {
    if toks != [] && |toks| <= BATCH {
      assert OpsCost(plans, [Put(TokVal(toks))][1..]) == 0;
    } else if toks != [] {
      BatchesCost(plans, toks[BATCH..]);
      var first, rest := [Put(TokVal(toks[..BATCH]))], Batches(toks[BATCH..]);
      OpsCostConcat(plans, first, rest);
      assert OpsCost(plans, first[1..]) == 0;
    }
  }

  lemma {:induction false} UncachedSize(toks: seq<Bytes>, valid: map<Bytes, bool>)
    ensures |Uncached(toks, valid)| <= |toks|
  {
    if toks != [] {
      UncachedSize(toks[1..], valid);
    }
  }

  /** A producer that is not finished pays for its step when the queue is empty. */
  lemma ProducerPays(b: Build, sh: Shared, p: Producer)
    requires sh.queue == [] && b.capacity > 0 && !p.Finished?
    ensures var r := ProducerStep(b, sh, p);
      ProducerCost(b.plans, r.producer) + ITEM * |r.shared.queue| < ProducerCost(b.plans, p)
  {
    if p.Working? && p.todo != [] {
      match p.todo[0]
      case ScanTokens(f) =>
        var toks := Uncached(TokensOf(b.plans, f), sh.board.valid);
        UncachedSize(TokensOf(b.plans, f), sh.board.valid);
        BatchesCost(b.plans, toks);
        OpsCostConcat(b.plans, Batches(toks), p.todo[1..]);
      case ClaimDigest(tok) => OpsCostConcat(b.plans, [Put(TokDig(tok))], p.todo[1..]);
      case _ =>
    }
  }

  /** So does a consumer, unless it has exited or would only poll an empty queue. */
  lemma ConsumerPays(b: Build, sh: Shared, done: bool, c: Consumer)
    requires !c.Exited? && (c.Idle? && sh.queue == [] ==> done)
    ensures var r := ConsumerStep(b, sh, done, c);
      ConsumerCost(done, r.consumer) + ITEM * |r.shared.queue| < ConsumerCost(done, c) + ITEM * |sh.queue|
  {
  }

  ghost predicate Nearer(b: Build, s: State, step: Action) {
    && Enabled(b, s, step) && Smooth(step) && !Stranded(Do(b, s, step))
    && Left(b, Do(b, s, step)) < Left(b, s)
  }

  lemma ConsumerNears(b: Build, s: State, i: nat)
    requires i < |s.consumers| && !s.consumers[i].Exited?
    requires s.consumers[i].Idle? && s.shared.queue == [] ==> s.producersDone
    ensures Left(b, Do(b, s, Consume(i))) < Left(b, s)
  {
    var r := ConsumerStep(b, s.shared, s.producersDone, s.consumers[i]);
    ConsumerPays(b, s.shared, s.producersDone, s.consumers[i]);
    SumUpdate(ConsumerCosts(s.producersDone), s.consumers, i, r.consumer);
  }

  lemma ProducerNears(b: Build, s: State, i: nat)
    requires i < |s.producers| && !s.producers[i].Finished? && s.shared.queue == [] && b.capacity > 0
    ensures Left(b, Do(b, s, Produce(i))) < Left(b, s)
  {
    var r := ProducerStep(b, s.shared, s.producers[i]);
    ProducerPays(b, s.shared, s.producers[i]);
    SumUpdate(ProducerCosts(b.plans), s.producers, i, r.producer);
  }

  lemma MainNears(b: Build, s: State)
    requires CanAdvance(s) && Phases(s)
    ensures Left(b, DoAdvance(s)) < Left(b, s)
  {
    if s.main.Collecting? && s.main.next == |s.producers| {
      forall c: Consumer ensures ConsumerCosts(true)(c) <= ConsumerCosts(s.producersDone)(c) {
      }
      SumMonotone(ConsumerCosts(true), ConsumerCosts(s.producersDone), s.consumers);
    }
  }

  /** While producers may still put: empty the queue first, then let the producer that is waited for go on. */
  lemma CollectingNears(b: Build, s: State) returns (step: Action)
    requires Live(b, s) && s.main.Collecting?
    ensures Nearer(b, s, step)
  {
    if i: nat :| i < |s.consumers| && !s.consumers[i].Idle? {
      step := Consume(i);
      ConsumerNears(b, s, i);
    } else if s.shared.queue != [] {
      step := Consume(0);
      ConsumerNears(b, s, 0);
    } else if s.main.next < |s.producers| && !s.producers[s.main.next].Finished? {
      step := Produce(s.main.next);
      ProducerNears(b, s, s.main.next);
    } else {
      step := Advance;
      MainNears(b, s);
    }
  }

  /** At the join: whoever holds an item goes on, else an idle consumer takes one. */
  lemma JoiningNears(b: Build, s: State) returns (step: Action)
    requires Live(b, s) && s.main == Joining && !Stranded(s)
    ensures Nearer(b, s, step)
  {
    if s.shared.unfinished == 0 {
      step := Advance;
      MainNears(b, s);
    } else if i: nat :| i < |s.consumers| && Holding(s.consumers[i]) {
      step := Consume(i);
      ConsumerNears(b, s, i);
      HolderStays(b, s, i);
    } else {
      CountZero(Holding, s.consumers);
      var i: nat :| i < |s.consumers| && !s.consumers[i].Exited? && !s.consumers[i].TimedOut?;
      step := Consume(i);
      ConsumerNears(b, s, i);
      HolderStays(b, s, i);
    }
  }

  /** A consumer at work, or idle with an item waiting, is not leaving after its step. */
  lemma HolderStays(b: Build, s: State, i: nat)
    requires i < |s.consumers| && (Holding(s.consumers[i]) || (s.consumers[i].Idle? && s.shared.queue != []))
    ensures !Stranded(Do(b, s, Consume(i)))
  {
    var t := Do(b, s, Consume(i));
    assert !t.consumers[i].Exited? && !t.consumers[i].TimedOut?;
  }

  /** After the join: consumers time out and leave, one by one. */
  lemma ReapingNears(b: Build, s: State) returns (step: Action)
    requires Live(b, s) && s.main.Reaping?
    ensures Nearer(b, s, step)
  {
    CountZero(Holding, s.consumers);
    assert s.shared.queue == [];
    if s.main.next < |s.consumers| && !s.consumers[s.main.next].Exited? {
      step := Consume(s.main.next);
      assert !Holding(s.consumers[s.main.next]);
      ConsumerNears(b, s, s.main.next);
    } else {
      step := Advance;
      MainNears(b, s);
    }
  }

  lemma LeftIsNat(b: Build, s: State)
    requires Phases(s)
    ensures Left(b, s) >= 0
  {
  }

  // -- Exactly when the build can end ---------------------------------------------------------------------

  /** A continuation in which nobody cancels and nothing fails. */
  ghost predicate Continuation(b: Build, path: seq<State>) {
    path != [] && forall i: nat :: i + 1 < |path| ==> SmoothAt(b, path, i)
  }

  ghost predicate CanEnd(b: Build, s: State) {
    exists path: seq<State> :: Continuation(b, path) && path[0] == s && Ended(path[|path| - 1])
  }

  lemma {:induction false} Finish(b: Build, s: State) returns (path: seq<State>)
    requires Live(b, s) && !Stranded(s)
    ensures Continuation(b, path) && path[0] == s && Ended(path[|path| - 1])
    decreases Left(b, s)
  {
    if Ended(s) {
      path := [s];
    } else {
      var step;
      if s.main.Collecting? {
        step := CollectingNears(b, s);
      } else if s.main.Joining? {
        step := JoiningNears(b, s);
      } else {
        step := ReapingNears(b, s);
      }
      var t := Do(b, s, step);
      StepKeeps(b, s, step);
      StepStaffs(b, s, step);
      LeftIsNat(b, t);
      var rest := Finish(b, t);
      path := Prepend(b, s, rest, step);
    }
  }

  lemma Prepend(b: Build, s: State, rest: seq<State>, step: Action) returns (path: seq<State>)
    requires Continuation(b, rest) && Enabled(b, s, step) && Smooth(step) && rest[0] == Do(b, s, step)
    ensures Continuation(b, path) && path == [s] + rest
  {
    path := [s] + rest;
    forall i: nat | i + 1 < |path| ensures SmoothAt(b, path, i) {
      if i > 0 {
        assert SmoothAt(b, rest, i - 1);
      }
    }
  }

  lemma {:induction false} StrandedPath(b: Build, path: seq<State>, i: nat)
    requires Continuation(b, path) && i < |path| && Live(b, path[0]) && Stranded(path[0])
    ensures Live(b, path[i]) && Stranded(path[i])
  {
    if i > 0 {
      StrandedPath(b, path, i - 1);
      assert SmoothAt(b, path, i - 1);
      var step :| Enabled(b, path[i - 1], step) && Smooth(step) && path[i] == Do(b, path[i - 1], step);
      StrandedForever(b, path[i - 1], step);
      StepKeeps(b, path[i - 1], step);
      StepStaffs(b, path[i - 1], step);
    }
  }

  /** From any reachable state, of any build - failing and cancelled ones included - the main thread can still get past
      the join exactly when the build is not stranded. */
  lemma CanEndIffNotStranded(b: Build, run: seq<State>, i: nat)
    requires IsRun(b, run) && i < |run|
    ensures CanEnd(b, run[i]) <==> !Stranded(run[i])
  {
    RunLive(b, run, i);
    if !Stranded(run[i]) {
      var path := Finish(b, run[i]);
    } else if CanEnd(b, run[i]) {
      var path: seq<State> :| Continuation(b, path) && path[0] == run[i] && Ended(path[|path| - 1]);
      StrandedPath(b, path, |path| - 1);
      StrandedJoins(b, path[|path| - 1]);
    }
  }

  lemma {:induction false} CalmPath(b: Build, path: seq<State>, i: nat)
    requires Continuation(b, path) && i < |path| && Calm(path[0])
    ensures Calm(path[i])
  {
    if i > 0 {
      CalmPath(b, path, i - 1);
      assert SmoothAt(b, path, i - 1);
      CalmNext(b, path[i - 1], path[i]);
    }
  }

  /** Every build that is not cancelled from the start has a run that returns normally. */
  lemma NormalReturnIsReachable(b: Build, s: State) returns (run: seq<State>)
    requires Init(b, s) && !s.shared.flags.cancel
    ensures IsRun(b, run) && run[0] == s && run[|run| - 1].main.Assembling?
  {
    InitInv(b, s);
    run := Finish(b, s);
    assert Calm(s);
    CalmPath(b, run, |run| - 1);
    forall i: nat | i + 1 < |run| ensures StepAt(b, run, i) {
      assert SmoothAt(b, run, i);
    }
  }

  // -- It can really happen --------------------------------------------------------------------------------

  const BLANK := File("a", " ")

  /** That build is what planning makes of the file. */
  lemma BlankPlan(k: Kernels)
    ensures Planned(OneFile(k).plans)
  {
    assert Short(Runs(" ", [])) == [];
    assert Members<Bytes>([]) == {};
    LexTotalOrder();
    SortedSetUnique(LexLe, {}, FileTokens(" "), []);
  }

  function OneFile(k: Kernels): Build {
    Build(k, [Plan(BLANK, [" "], [])], 1, 1, 1)
  }

  const EMPTY_BOARD := Board(map[], map[], {}, map[], map[])
  const PUT_BLANK := Put(Leaf(0, 0))

  function At(queue: seq<Item>, p: Producer, c: Consumer, main: Main): State {
    State(Queued(queue), main.Joining?, [p], [c], main)
  }

  lemma OneProgram(k: Kernels)
    ensures ChunkProgram(OneFile(k).plans, 0, 1) == ALL_OPS
  {
    var plans := OneFile(k).plans;
    assert LeafPuts(0, 0, 1) == [PUT_BLANK];
    assert Claims([]) == [];
    assert Program(plans, 0) == [Begin, PUT_BLANK, ScanTokens(0)];
    assert ChunkProgram(plans, 1, 1) == [];
  }

  lemma Extend(b: Build, run: seq<State>, step: Action, next: State) returns (longer: seq<State>)
    requires IsRun(b, run) && Enabled(b, run[|run| - 1], step) && next == Do(b, run[|run| - 1], step)
    ensures IsRun(b, longer) && longer[|longer| - 1] == next
  {
    longer := run + [next];
    forall i: nat | i + 1 < |longer| ensures StepAt(b, longer, i) {
      if i + 1 < |run| {
        assert StepAt(b, run, i);
      } else {
        assert longer[i] == run[|run| - 1];
      }
    }
  }

  function Queued(queue: seq<Item>): Shared {
    Shared(queue, |queue|, EMPTY_BOARD, Flags(false, false, []))
  }

  lemma ProduceOnce(b: Build, run: seq<State>, queue: seq<Item>, p: Producer, longer: seq<Item>, q: Producer)
    returns (next: seq<State>)
    requires IsRun(b, run) && run[|run| - 1] == At(queue, p, TimedOut, Collecting(0))
    requires ProducerStep(b, Queued(queue), p) == Produced(Queued(longer), q)
    ensures IsRun(b, next) && next[|next| - 1] == At(longer, q, TimedOut, Collecting(0))
  {
    assert [p][0 := q] == [q];
    next := Extend(b, run, Produce(0), At(longer, q, TimedOut, Collecting(0)));
  }

  const ALL_OPS := [Begin, PUT_BLANK, ScanTokens(0)]

  lemma BlankSteps(k: Kernels)
    ensures ProducerStep(OneFile(k), Queued([]), Working(ALL_OPS, false))
         == Produced(Queued([]), Working(ALL_OPS[1..], false))
    ensures ProducerStep(OneFile(k), Queued([]), Working(ALL_OPS[1..], false))
         == Produced(Queued([]), Working(ALL_OPS[1..], true))
    ensures ProducerStep(OneFile(k), Queued([]), Working(ALL_OPS[1..], true))
         == Produced(Queued([Leaf(0, 0)]), Working(ALL_OPS[2..], false))
    ensures ProducerStep(OneFile(k), Queued([Leaf(0, 0)]), Working(ALL_OPS[2..], false))
         == Produced(Queued([Leaf(0, 0)]), Working([], false))
    ensures ProducerStep(OneFile(k), Queued([Leaf(0, 0)]), Working([], false))
         == Produced(Queued([Leaf(0, 0)]), Finished)
  {
    assert [] + [Leaf(0, 0)] == [Leaf(0, 0)];
    assert ALL_OPS[1..][0] == PUT_BLANK && ALL_OPS[1..][1..] == ALL_OPS[2..] == [ScanTokens(0)];
    assert Batches(Uncached([], map[])) + [ScanTokens(0)][1..] == [];
  }

  /** The consumer looks into the empty queue first. */
  lemma LookTooEarly(k: Kernels) returns (run: seq<State>)
    ensures IsRun(OneFile(k), run) && run[|run| - 1] == At([], Working(ALL_OPS, false), TimedOut, Collecting(0))
  {
    var b := OneFile(k);
    OneProgram(k);
    run := [At([], Working(ALL_OPS, false), Idle, Collecting(0))];
    assert Init(b, run[0]);
    run := Extend(b, run, Consume(0), At([], Working(ALL_OPS, false), TimedOut, Collecting(0)));
  }

  /** Then the producer puts its only item and finishes. */
  lemma PutTooLate(k: Kernels) returns (run: seq<State>)
    ensures IsRun(OneFile(k), run) && run[|run| - 1] == At([Leaf(0, 0)], Finished, TimedOut, Collecting(0))
  {
    var b := OneFile(k);
    run := LookTooEarly(k);
    BlankSteps(k);
    run := ProduceOnce(b, run, [], Working(ALL_OPS, false), [], Working(ALL_OPS[1..], false));
    run := ProduceOnce(b, run, [], Working(ALL_OPS[1..], false), [], Working(ALL_OPS[1..], true));
    run := ProduceOnce(b, run, [], Working(ALL_OPS[1..], true), [Leaf(0, 0)], Working(ALL_OPS[2..], false));
    run := ProduceOnce(b, run, [Leaf(0, 0)], Working(ALL_OPS[2..], false), [Leaf(0, 0)], Working([], false));
    run := ProduceOnce(b, run, [Leaf(0, 0)], Working([], false), [Leaf(0, 0)], Finished);
  }

  lemma JoinTooLate(k: Kernels) returns (b: Build, run: seq<State>)
    ensures b == OneFile(k) && IsRun(b, run) && Stranded(run[|run| - 1])
  {
    b := OneFile(k);
    run := PutTooLate(k);
    run := Extend(b, run, Advance, At([Leaf(0, 0)], Finished, TimedOut, Collecting(1)));
    run := Extend(b, run, Advance, At([Leaf(0, 0)], Finished, TimedOut, Joining));
  }

  /** One file of one window, one producer, one consumer: the consumer looks into the empty queue before the producer
      puts its only item, and then finds the producers done.  The build never ends. */
  lemma StrandingIsReachable(k: Kernels) returns (b: Build, run: seq<State>)
    ensures b.k == k && Planned(b.plans) && IsRun(b, run)
    ensures Stranded(run[|run| - 1]) && !CanEnd(b, run[|run| - 1])
  {
    b, run := StrandedForGood(k);
    BlankPlan(k);
  }

  lemma StrandedForGood(k: Kernels) returns (b: Build, run: seq<State>)
    ensures b == OneFile(k) && IsRun(b, run) && Stranded(run[|run| - 1]) && !CanEnd(b, run[|run| - 1])
  {
    b, run := JoinTooLate(k);
    CanEndIffNotStranded(b, run, |run| - 1);
  }
}
