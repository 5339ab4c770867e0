/** Which builds can be stranded at all: those that have anything to put on the queue. */
module PipelineStranding {
  import opened Collections
  import opened Sorting
  import opened Digest
  import opened Tokens
  import opened PipelineMachine
  import opened PipelineInvariant
  import opened PipelineSafety
  import opened PipelineResults
  import opened PipelineProgress

  // -- Work ----------------------------------------------------------------------------------------------

  /** Something of this file has to go through the queue: a window, or a token whose verdict or digest is not known. */
  ghost predicate FileHasWork(plan: Plan, board: Board) {
    plan.windows != [] || exists tok :: tok in plan.tokens && (tok !in board.valid || tok !in board.memo)
  }

  ghost predicate HasWork(b: Build, board: Board) {
    exists f :: 0 <= f < |b.plans| && FileHasWork(b.plans[f], board)
  }

  /** An operation that will put nothing on the queue. */
  predicate Dry(b: Build, op: Op, board: Board) {
    match op
    case Begin => true
    case Put(_) => false
    case ScanTokens(f) => forall tok :: tok in TokensOf(b.plans, f) ==> tok in board.valid
    case ClaimDigest(tok) => tok in board.tokDigests || tok in board.submitted || tok in board.memo
  }

  ghost predicate AllDry(b: Build, todo: seq<Op>, board: Board) {
    forall op :: op in todo ==> Dry(b, op, board)
  }

  // -- Without work nothing is ever queued ---------------------------------------------------------------

  /** Nothing queued, nothing in hand, and nothing to come. */
  ghost predicate NothingToPut(b: Build, s: State) {
    && s.shared.queue == []
    && (forall i :: 0 <= i < |s.consumers| ==> !Holding(s.consumers[i]))
    && (forall i :: 0 <= i < |s.producers| ==> Harmless(b, s.shared, s.producers[i]))
  }

  ghost predicate Harmless(b: Build, sh: Shared, p: Producer) {
    p.Working? ==> AllDry(b, p.todo, sh.board) || (sh.flags.cancel && (p.todo == [] || p.todo[0] == Begin))
  }

  ghost predicate Knows(x: Shared, y: Shared) {
    && x.board.valid.Keys <= y.board.valid.Keys && x.board.memo.Keys <= y.board.memo.Keys
    && x.board.tokDigests.Keys <= y.board.tokDigests.Keys && x.board.submitted <= y.board.submitted
    && (x.flags.cancel ==> y.flags.cancel)
  }

  lemma HarmlessStays(b: Build, x: Shared, y: Shared, p: Producer)
    requires Harmless(b, x, p) && Knows(x, y)
    ensures Harmless(b, y, p)
  {
  }

  lemma {:induction false} UncachedNone(toks: seq<Bytes>, valid: map<Bytes, bool>)
    ensures Uncached(toks, valid) == [] <==> forall tok :: tok in toks ==> tok in valid
  {
    if toks != [] {
      UncachedNone(toks[1..], valid);
      assert toks == [toks[0]] + toks[1..];
    }
  }

  lemma HarmlessStep(b: Build, sh: Shared, p: Producer)
    requires Harmless(b, sh, p)
    ensures var r := ProducerStep(b, sh, p); r.shared.queue == sh.queue && Harmless(b, r.shared, r.producer)
    ensures Knows(sh, ProducerStep(b, sh, p).shared)
  {
    if p.Working? && p.todo != [] && AllDry(b, p.todo, sh.board) {
      var r := ProducerStep(b, sh, p);
      assert p.todo[0] in p.todo && Dry(b, p.todo[0], sh.board);
      if p.todo[0].ScanTokens? {
        UncachedNone(TokensOf(b.plans, p.todo[0].file), sh.board.valid);
        assert Batches([]) + p.todo[1..] == p.todo[1..];
      }
      assert r.producer.Working? ==> r.producer.todo == p.todo[1..];
      forall op | op in p.todo[1..] ensures Dry(b, op, r.shared.board) {
        assert op in p.todo;
      }
    }
  }

  lemma NothingStays(b: Build, s: State, step: Action)
    requires NothingToPut(b, s) && Enabled(b, s, step)
    ensures NothingToPut(b, Do(b, s, step))
  {
    var t := Do(b, s, step);
    if step.Produce? {
      HarmlessStep(b, s.shared, s.producers[step.i]);
    }
    assert Knows(s.shared, t.shared);
    forall i | 0 <= i < |t.producers| ensures Harmless(b, t.shared, t.producers[i]) {
      if t.producers[i] == s.producers[i] { HarmlessStays(b, s.shared, t.shared, s.producers[i]); }
    }
  }

  lemma {:induction false} ChunkDry(b: Build, f: nat, n: nat, board: Board)
    requires n > 0 && !HasWork(b, board)
    ensures AllDry(b, ChunkProgram(b.plans, f, n), board)
    decreases |b.plans| - f
  {
    if f < |b.plans| {
      assert !FileHasWork(b.plans[f], board);
      assert LeafPuts(f, 0, |b.plans[f].windows|) == [];
      ChunkDry(b, f + n, n, board);
    }
  }

  lemma StartsHarmless(b: Build, s: State)
    requires Init(b, s) && (s.shared.flags.cancel || !HasWork(b, s.shared.board))
    ensures NothingToPut(b, s)
  {
    forall i | 0 <= i < |s.producers| ensures Harmless(b, s.shared, s.producers[i]) {
      if !s.shared.flags.cancel { ChunkDry(b, i, b.producers, s.shared.board); }
    }
  }

  lemma {:induction false} NeverQueues(b: Build, run: seq<State>, i: nat)
    requires IsRun(b, run) && i < |run| && NothingToPut(b, run[0])
    ensures NothingToPut(b, run[i])
  {
    if i > 0 {
      NeverQueues(b, run, i - 1);
      assert StepAt(b, run, i - 1);
      var step :| Enabled(b, run[i - 1], step) && run[i] == Do(b, run[i - 1], step);
      NothingStays(b, run[i - 1], step);
    }
  }

  // -- With work, a schedule that strands -----------------------------------------------------------------

  ghost predicate Going(b: Build, s: State) {
    Live(b, s) && Calm(s) && s.main.Collecting?
  }

  ghost predicate AllTimedOut(s: State) {
    forall i :: 0 <= i < |s.consumers| ==> s.consumers[i].TimedOut?
  }

  ghost predicate Leads(b: Build, path: seq<State>, s: State, t: State) {
    Continuation(b, path) && path[0] == s && path[|path| - 1] == t
  }

  lemma GoesOn(b: Build, s: State, step: Action)
    requires Going(b, s) && Enabled(b, s, step) && Smooth(step)
    ensures Live(b, Do(b, s, step)) && Calm(Do(b, s, step))
  {
    StepKeeps(b, s, step);
    StepStaffs(b, s, step);
    CalmStep(b, s, step);
  }

  lemma LeadsOn(b: Build, s: State, step: Action, rest: seq<State>, t: State) returns (path: seq<State>)
    requires Enabled(b, s, step) && Smooth(step) && Leads(b, rest, Do(b, s, step), t)
    ensures Leads(b, path, s, t)
  {
    path := Prepend(b, s, rest, step);
  }

  lemma {:induction false} LeadsTwice(b: Build, p: seq<State>, q: seq<State>, s: State, t: State, u: State)
    returns (path: seq<State>)
    requires Leads(b, p, s, t) && Leads(b, q, t, u)
    ensures Leads(b, path, s, u)
    decreases |p|
  {
    if |p| == 1 {
      path := q;
    } else {
      assert SmoothAt(b, p, 0);
      var step :| Enabled(b, p[0], step) && Smooth(step) && p[1] == Do(b, p[0], step);
      var rest := p[1..];
      forall i: nat | i + 1 < |rest| ensures SmoothAt(b, rest, i) {
        assert SmoothAt(b, p, i + 1);
      }
      var longer := LeadsTwice(b, rest, q, p[1], t, u);
      path := LeadsOn(b, s, step, longer, u);
    }
  }

  /** The consumers empty the queue and come back to it. */
  lemma {:induction false} Drain(b: Build, s: State) returns (path: seq<State>, t: State)
    requires Going(b, s)
    ensures Leads(b, path, s, t) && Going(b, t) && t.main == s.main && t.producers == s.producers
    ensures t.shared.queue == [] && forall i :: 0 <= i < |t.consumers| ==> t.consumers[i].Idle?
    decreases Left(b, s)
  {
    var i := 0;
    if j: nat :| j < |s.consumers| && !s.consumers[j].Idle? {
      i := j;
    } else if s.shared.queue == [] {
      path, t := [s], s;
      return;
    }
    ConsumerNears(b, s, i);
    GoesOn(b, s, Consume(i));
    LeftIsNat(b, Do(b, s, Consume(i)));
    path, t := Drain(b, Do(b, s, Consume(i)));
    path := LeadsOn(b, s, Consume(i), path, t);
  }

  /** All consumers look into the empty queue. */
  lemma {:induction false} TimeOutFrom(b: Build, s: State, n: nat) returns (path: seq<State>, t: State)
    requires Going(b, s) && s.shared.queue == [] && n <= |s.consumers|
    requires forall i :: 0 <= i < |s.consumers| ==> s.consumers[i] == if i < n then TimedOut else Idle
    ensures Leads(b, path, s, t) && Going(b, t) && t.main == s.main && t.producers == s.producers
    ensures t.shared == s.shared && AllTimedOut(t)
    decreases |s.consumers| - n
  {
    if n == |s.consumers| {
      path, t := [s], s;
    } else {
      GoesOn(b, s, Consume(n));
      path, t := TimeOutFrom(b, Do(b, s, Consume(n)), n + 1);
      path := LeadsOn(b, s, Consume(n), path, t);
    }
  }

  lemma Poise(b: Build, s: State) returns (path: seq<State>, t: State)
    requires Going(b, s)
    ensures Leads(b, path, s, t) && Going(b, t) && t.main == s.main && t.producers == s.producers
    ensures t.shared.queue == [] && AllTimedOut(t)
  {
    var p, u := Drain(b, s);
    var q;
    q, t := TimeOutFrom(b, u, 0);
    path := LeadsTwice(b, p, q, s, u, t);
  }

  /** A producer with an operation that puts, on an empty queue: it puts, or still has one. */
  lemma PendingStep(b: Build, sh: Shared, p: Producer)
    requires p.Working? && !AllDry(b, p.todo, sh.board) && sh.queue == [] && b.capacity > 0
    requires !sh.flags.stop && !sh.flags.cancel
    ensures var r := ProducerStep(b, sh, p);
      r.shared.queue != [] || (r.producer.Working? && !AllDry(b, r.producer.todo, r.shared.board))
  {
    var r := ProducerStep(b, sh, p);
    var op :| op in p.todo && !Dry(b, op, sh.board);
    match p.todo[0]
    case Begin => RestPending(p.todo, op);
    case Put(_) =>
      if r.shared.queue == [] { assert p.todo[0] in r.producer.todo; }
    case ScanTokens(f) =>
      var more := Batches(Uncached(TokensOf(b.plans, f), sh.board.valid));
      UncachedNone(TokensOf(b.plans, f), sh.board.valid);
      if more != [] {
        assert more[0].Put? && (more + p.todo[1..])[0] == more[0];
        assert more[0] in r.producer.todo;
      } else {
        assert Dry(b, p.todo[0], sh.board);
        RestPending(p.todo, op);
      }
    case ClaimDigest(tok) =>
      if Dry(b, p.todo[0], sh.board) {
        RestPending(p.todo, op);
      } else {
        assert Put(TokDig(tok)) in r.producer.todo;
      }
  }

  lemma RestPending(todo: seq<Op>, op: Op)
    requires op in todo && op != todo[0]
    ensures op in todo[1..]
  {
  }

  /** While some producer has something to put, it comes to a put before any consumer looks again. */
  lemma {:induction false} FirstPut(b: Build, s: State, i: nat) returns (path: seq<State>, t: State)
    requires Going(b, s) && AllTimedOut(s) && s.shared.queue == [] && i < |s.producers|
    requires s.producers[i].Working? && !AllDry(b, s.producers[i].todo, s.shared.board)
    ensures Leads(b, path, s, t) && Going(b, t) && AllTimedOut(t) && t.shared.queue != []
    decreases ProducerCost(b.plans, s.producers[i])
  {
    var u := Do(b, s, Produce(i));
    ProducerPays(b, s.shared, s.producers[i]);
    PendingStep(b, s.shared, s.producers[i]);
    GoesOn(b, s, Produce(i));
    if u.shared.queue != [] {
      path, t := [u], u;
    } else {
      path, t := FirstPut(b, u, i);
    }
    path := LeadsOn(b, s, Produce(i), path, t);
  }

  predicate Blocked(b: Build, sh: Shared, p: Producer) {
    p.Working? && p.todo != [] && p.todo[0].Put? && p.armed && |sh.queue| >= b.capacity
  }

  /** A producer that is neither finished nor blocked comes nearer its end, and takes nothing off the queue. */
  lemma ProducerGoesOn(b: Build, sh: Shared, p: Producer)
    requires !p.Finished? && !Blocked(b, sh, p)
    ensures var r := ProducerStep(b, sh, p);
      ProducerCost(b.plans, r.producer) < ProducerCost(b.plans, p) && |r.shared.queue| >= |sh.queue|
  {
    if p.Working? && p.todo != [] {
      match p.todo[0]
      case ScanTokens(f) =>
        var toks := Uncached(TokensOf(b.plans, f), sh.board.valid);
        UncachedSize(TokensOf(b.plans, f), sh.board.valid);
        BatchesCost(b.plans, toks);
        OpsCostConcat(b.plans, Batches(toks), p.todo[1..]);
      case ClaimDigest(tok) => OpsCostConcat(b.plans, [Put(TokDig(tok))], p.todo[1..]);
      case _ =>
    }
  }

  function Costs(b: Build, s: State): nat {
    Sum(ProducerCosts(b.plans), s.producers)
  }

  /** One producer's step with all consumers timed out and something queued afterwards. */
  lemma PutOn(b: Build, s: State, i: nat) returns (path: seq<State>, t: State)
    requires Going(b, s) && AllTimedOut(s) && s.shared.queue != [] && i < |s.producers| && !s.producers[i].Finished?
    ensures Leads(b, path, s, t) && Going(b, t) && AllTimedOut(t) && t.shared.queue != [] && t.main == s.main
    ensures Costs(b, t) < Costs(b, s) && |t.producers| == |s.producers|
  {
    var p, u := [s], s;
    if Blocked(b, s.shared, s.producers[i]) {
      p, u := Poise(b, s);
    }
    ProducerGoesOn(b, u.shared, u.producers[i]);
    SumUpdate(ProducerCosts(b.plans), u.producers, i, ProducerStep(b, u.shared, u.producers[i]).producer);
    GoesOn(b, u, Produce(i));
    t := Do(b, u, Produce(i));
    var q := LeadsOn(b, u, Produce(i), [t], t);
    path := LeadsTwice(b, p, q, s, u, t);
  }

  /** With something queued and all consumers timed out, the producers finish, blocked or not, and the main thread
      declares them done. */
  lemma {:induction false} StrandOn(b: Build, s: State) returns (path: seq<State>, t: State)
    requires Going(b, s) && AllTimedOut(s) && s.shared.queue != []
    ensures Leads(b, path, s, t) && Stranded(t)
    decreases Costs(b, s), |s.producers| - s.main.next
  {
    if i: nat :| i < |s.producers| && !s.producers[i].Finished? {
      var p, u := PutOn(b, s, i);
      var q;
      q, t := StrandOn(b, u);
      path := LeadsTwice(b, p, q, s, u, t);
    } else {
      GoesOn(b, s, Advance);
      var u := Do(b, s, Advance);
      if s.main.next < |s.producers| {
        path, t := StrandOn(b, u);
      } else {
        path, t := [u], u;
      }
      path := LeadsOn(b, s, Advance, path, t);
    }
  }

  // -- Exactly which builds ---------------------------------------------------------------------------------

  /** The operation that makes the first file's work pending. */
  lemma WorkIsPending(b: Build, s: State) returns (i: nat)
    requires Init(b, s) && HasWork(b, s.shared.board)
    ensures i < |s.producers| && s.producers[i].Working? && !AllDry(b, s.producers[i].todo, s.shared.board)
  {
    var f: nat :| f < |b.plans| && FileHasWork(b.plans[f], s.shared.board);
    i := f % b.producers;
    var board := s.shared.board;
    var job;
    if b.plans[f].windows != [] {
      job := LeafJob(f, 0);
    } else {
      var tok :| tok in b.plans[f].tokens && (tok !in board.valid || tok !in board.memo);
      job := if tok !in board.valid then ValidJob(tok) else ClaimJob(tok);
    }
    ChunkServes(b.plans, i, b.producers, f / b.producers, f, job);
    var todo := s.producers[i].todo;
    var k :| 0 <= k < |todo| && OpServes(b.plans, todo[k], job);
    assert todo[k] in todo && !Dry(b, todo[k], board);
  }

  ghost predicate CanStrand(b: Build, s: State) {
    exists run: seq<State> :: IsRun(b, run) && run[0] == s && Stranded(run[|run| - 1])
  }

  /** A build can be stranded if and only if it is not cancelled from the start and has anything to put: a file with a
      window, or a token whose verdict or digest the session does not know yet. */
  lemma CanStrandIffWork(b: Build, s: State)
    requires Init(b, s)
    ensures CanStrand(b, s) <==> HasWork(b, s.shared.board) && !s.shared.flags.cancel
  {
    if HasWork(b, s.shared.board) && !s.shared.flags.cancel {
      var run := StrandingRun(b, s);
    } else if CanStrand(b, s) {
      var run: seq<State> :| IsRun(b, run) && run[0] == s && Stranded(run[|run| - 1]);
      StartsHarmless(b, s);
      NeverQueues(b, run, |run| - 1);
    }
  }

  lemma StrandingRun(b: Build, s: State) returns (run: seq<State>)
    requires Init(b, s) && HasWork(b, s.shared.board) && !s.shared.flags.cancel
    ensures IsRun(b, run) && run[0] == s && Stranded(run[|run| - 1])
  {
    InitInv(b, s);
    assert Going(b, s);
    var i := WorkIsPending(b, s);
    var p, t := TimeOutFrom(b, s, 0);
    var q, u := FirstPut(b, t, i);
    var r, v := StrandOn(b, u);
    q := LeadsTwice(b, q, r, t, u, v);
    run := LeadsTwice(b, p, q, s, t, v);
    forall j: nat | j + 1 < |run| ensures StepAt(b, run, j) {
      assert SmoothAt(b, run, j);
    }
  }

  /** For planned builds: if and only if it is not cancelled from the start and some file is not empty. */
  lemma PlannedCanStrandIff(b: Build, s: State)
    requires Init(b, s) && Planned(b.plans)
    ensures CanStrand(b, s) <==> !s.shared.flags.cancel && exists f :: 0 <= f < |b.plans| && b.plans[f].file.data != []
  {
    CanStrandIffWork(b, s);
    forall f | 0 <= f < |b.plans| ensures FileHasWork(b.plans[f], s.shared.board) <==> b.plans[f].file.data != [] {
      assert IsPlan(b.plans[f]);
      if b.plans[f].file.data == [] { EmptyFile(b.plans[f]); }
    }
  }

  lemma EmptyFile(plan: Plan)
    requires IsPlan(plan) && plan.file.data == []
    ensures plan.windows == [] && plan.tokens == []
  {
    assert Members<Bytes>([]) == {};
    LexTotalOrder();
    SortedSetUnique(LexLe, {}, FileTokens([]), []);
  }
}
