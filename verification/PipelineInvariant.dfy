/** What every step of the concurrent build keeps: correct tables, the count of unfinished tasks, and
    that every piece of planned work is done, on its way, or lost to a recorded failure. */
module PipelineInvariant {
  import opened Digest
  import opened FileBuild
  import opened PipelineMachine

  // -- Values ----------------------------------------------------------------------------------

  ghost predicate LeavesOk(b: Build, leaves: map<(nat, nat), WinDigest>) {
    forall f: nat, w: nat :: (f, w) in leaves ==> leaves[(f, w)] == LeafOf(b.k.step, b.k.basis, ChunkOf(b.plans, f, w))
  }

  ghost predicate DigestsOk(k: Kernels, digests: map<Bytes, int>) {
    forall t :: t in digests ==> digests[t] == TokenDigest(k, t)
  }

  ghost predicate BoardOk(b: Build, board: Board) {
    MemoOk(b.k, board) && LeavesOk(b, board.leaves) && DigestsOk(b.k, board.tokDigests)
  }

  ghost predicate ConsumerOk(k: Kernels, errors: seq<Failure>, c: Consumer) {
    (c.Storing? ==> c.digest == TokenDigest(k, c.tok)) && (c.Halting? ==> errors != [])
  }

  ghost predicate ProducerOk(errors: seq<Failure>, p: Producer) {
    p.Stopping? ==> errors != []
  }

  // -- Work ------------------------------------------------------------------------------------

  /** A piece of work that must be settled before results are assembled. */
  datatype Job = LeafJob(file: nat, window: nat) | ValidJob(tok: Bytes) | ClaimJob(tok: Bytes) | SendJob(tok: Bytes)

  ghost predicate Wanted(b: Build, board: Board, job: Job) {
    match job
    case LeafJob(f, w) => f < |b.plans| && w < |b.plans[f].windows|
    case ValidJob(tok) => exists f :: 0 <= f < |b.plans| && tok in b.plans[f].tokens
    case ClaimJob(tok) => exists f :: 0 <= f < |b.plans| && tok in b.plans[f].tokens
    case SendJob(tok) => tok in board.submitted
  }

  predicate Settled(board: Board, job: Job) {
    match job
    case LeafJob(f, w) => (f, w) in board.leaves
    case ValidJob(tok) => tok in board.valid
    case ClaimJob(tok) => tok in board.tokDigests || tok in board.submitted
    case SendJob(tok) => tok in board.tokDigests
  }

  predicate ItemServes(item: Item, job: Job) {
    match item
    case Leaf(f, w) => job == LeafJob(f, w)
    case TokVal(toks) => job.ValidJob? && job.tok in toks
    case TokDig(tok) => job == SendJob(tok)
  }

  predicate OpServes(plans: seq<Plan>, op: Op, job: Job) {
    match op
    case Begin => false
    case Put(item) => ItemServes(item, job)
    case ScanTokens(f) => job.ValidJob? && job.tok in TokensOf(plans, f)
    case ClaimDigest(tok) => job == ClaimJob(tok)
  }

  predicate QueueServes(queue: seq<Item>, job: Job) {
    exists i :: 0 <= i < |queue| && ItemServes(queue[i], job)
  }

  predicate TodoServes(plans: seq<Plan>, todo: seq<Op>, job: Job) {
    exists i :: 0 <= i < |todo| && OpServes(plans, todo[i], job)
  }

  predicate ProducerServes(plans: seq<Plan>, p: Producer, job: Job) {
    p.Working? && TodoServes(plans, p.todo, job)
  }

  predicate ConsumerServes(c: Consumer, job: Job) {
    match c
    case Taken(item) => ItemServes(item, job)
    case Checking(item) => ItemServes(item, job)
    case Running(item) => ItemServes(item, job)
    case Storing(tok, _) => job == SendJob(tok)
    case _ => false
  }

  lemma TodoSplit(plans: seq<Plan>, a: seq<Op>, c: seq<Op>, job: Job)
    ensures TodoServes(plans, a + c, job) <==> TodoServes(plans, a, job) || TodoServes(plans, c, job)
  {
    var both := a + c;
    assert forall i :: 0 <= i < |a| ==> both[i] == a[i];
    assert forall i :: 0 <= i < |c| ==> both[|a| + i] == c[i];
  }

  lemma QueueSplit(a: seq<Item>, c: seq<Item>, job: Job)
    ensures QueueServes(a + c, job) <==> QueueServes(a, job) || QueueServes(c, job)
  {
    var both := a + c;
    assert forall i :: 0 <= i < |a| ==> both[i] == a[i];
    assert forall i :: 0 <= i < |c| ==> both[|a| + i] == c[i];
  }

  // -- One producer ------------------------------------------------------------------------------

  /** Tables only grow, and so do recorded failures. */
  ghost predicate Grows(x: Shared, y: Shared) {
    && (forall job :: Settled(x.board, job) ==> Settled(y.board, job))
    && x.board.submitted <= y.board.submitted
    && (x.flags.errors != [] ==> y.flags.errors == x.flags.errors)
  }

  lemma ProducerValues(b: Build, sh: Shared, p: Producer)
    requires BoardOk(b, sh.board) && ProducerOk(sh.flags.errors, p)
    ensures var r := ProducerStep(b, sh, p);
      BoardOk(b, r.shared.board) && ProducerOk(r.shared.flags.errors, r.producer) && Grows(sh, r.shared)
  {
  }

  lemma ProducerCounts(b: Build, sh: Shared, p: Producer)
    ensures var r := ProducerStep(b, sh, p);
      && r.shared.unfinished - |r.shared.queue| == sh.unfinished - |sh.queue|
      && (p.Finished? ==> r == Produced(sh, Finished))
  {
  }

  /** A failing producer leaves a trace: the stop flag never appears without one. */
  lemma ProducerTrace(b: Build, sh: Shared, p: Producer)
    requires ProducerOk(sh.flags.errors, p)
    ensures var r := ProducerStep(b, sh, p);
      && (p.Throwing? ==> r.shared.flags.errors != [])
      && (r.shared.flags.stop && !sh.flags.stop ==> r.producer.Throwing? || r.shared.flags.errors != [])
  {
  }

  lemma {:induction false} BatchesServe(plans: seq<Plan>, toks: seq<Bytes>, tok: Bytes)
    requires tok in toks
    ensures TodoServes(plans, Batches(toks), ValidJob(tok))
    decreases |toks|
  {
    if |toks| <= BATCH {
      assert OpServes(plans, Batches(toks)[0], ValidJob(tok));
    } else {
      TodoSplit(plans, [Put(TokVal(toks[..BATCH]))], Batches(toks[BATCH..]), ValidJob(tok));
      if tok in toks[..BATCH] {
        assert OpServes(plans, [Put(TokVal(toks[..BATCH]))][0], ValidJob(tok));
      } else {
        assert toks == toks[..BATCH] + toks[BATCH..];
        BatchesServe(plans, toks[BATCH..], tok);
      }
    }
  }

  lemma {:induction false} UncachedIsRest(toks: seq<Bytes>, valid: map<Bytes, bool>, tok: Bytes)
    requires tok in toks && tok !in valid
    ensures tok in Uncached(toks, valid)
  {
    if tok != toks[0] {
      UncachedIsRest(toks[1..], valid, tok);
    }
  }

  /** Whatever the producer was still to do is now settled, queued, or still to do, unless it failed. */
  lemma ProducerKeepsWork(b: Build, sh: Shared, p: Producer, job: Job)
    requires ProducerServes(b.plans, p, job)
    ensures var r := ProducerStep(b, sh, p);
      Settled(r.shared.board, job) || QueueServes(r.shared.queue, job) || ProducerServes(b.plans, r.producer, job) ||
          r.producer.Throwing?
  {
    var todo := p.todo;
    assert todo == [todo[0]] + todo[1..];
    TodoSplit(b.plans, [todo[0]], todo[1..], job);
    match todo[0]
    case Begin =>
    case Put(item) =>
      QueueSplit(sh.queue, [item], job);
      if ItemServes(item, job) { assert ItemServes([item][0], job); }
    case ScanTokens(f) =>
      var toks := Uncached(TokensOf(b.plans, f), sh.board.valid);
      TodoSplit(b.plans, Batches(toks), todo[1..], job);
      if OpServes(b.plans, todo[0], job) && !Settled(sh.board, job) {
        UncachedIsRest(TokensOf(b.plans, f), sh.board.valid, job.tok);
        BatchesServe(b.plans, toks, job.tok);
      }
    case ClaimDigest(tok) => TodoSplit(b.plans, [Put(TokDig(tok))], todo[1..], job);
  }

  lemma ProducerKeepsQueue(b: Build, sh: Shared, p: Producer, job: Job)
    requires QueueServes(sh.queue, job)
    ensures QueueServes(ProducerStep(b, sh, p).shared.queue, job)
  {
    var r := ProducerStep(b, sh, p);
    if r.shared.queue != sh.queue {
      QueueSplit(sh.queue, [p.todo[0].item], job);
    }
  }

  /** A newly submitted token is the producer's next item. */
  lemma ProducerOwesSubmission(b: Build, sh: Shared, p: Producer, tok: Bytes)
    requires var r := ProducerStep(b, sh, p); tok in r.shared.board.submitted && tok !in sh.board.submitted
    ensures ProducerServes(b.plans, ProducerStep(b, sh, p).producer, SendJob(tok))
  {
    var r := ProducerStep(b, sh, p);
    assert OpServes(b.plans, r.producer.todo[0], SendJob(tok));
  }

  // -- One consumer ------------------------------------------------------------------------------

  lemma ConsumerValues(b: Build, sh: Shared, done: bool, c: Consumer)
    requires BoardOk(b, sh.board) && ConsumerOk(b.k, sh.flags.errors, c)
    ensures var r := ConsumerStep(b, sh, done, c);
      BoardOk(b, r.shared.board) && ConsumerOk(b.k, r.shared.flags.errors, r.consumer) && Grows(sh, r.shared)
  {
    if c.Running? { ItemValues(b, sh, c.item); }
  }

  lemma ItemValues(b: Build, sh: Shared, item: Item)
    requires BoardOk(b, sh.board)
    ensures var r := DoItem(b, sh, item);
      BoardOk(b, r.shared.board) && ConsumerOk(b.k, r.shared.flags.errors, r.consumer) && Grows(sh, r.shared)
  {
  }

  /** A consumer between `get` and `task_done`. */
  predicate Holding(c: Consumer) {
    !c.Idle? && !c.TimedOut? && !c.Exited?
  }

  function Hand(c: Consumer): int {
    if Holding(c) then 1 else 0
  }

  lemma ConsumerCounts(b: Build, sh: Shared, done: bool, c: Consumer)
    ensures var r := ConsumerStep(b, sh, done, c);
      && r.shared.unfinished - |r.shared.queue| - Hand(r.consumer) == sh.unfinished - |sh.queue| - Hand(c)
      && (c.Exited? ==> r == Consumed(sh, Exited))
      && (sh.queue == [] && !Holding(c) ==> r.shared == sh && !Holding(r.consumer))
  {
  }

  lemma ConsumerTrace(b: Build, sh: Shared, done: bool, c: Consumer)
    requires ConsumerOk(b.k, sh.flags.errors, c)
    ensures var r := ConsumerStep(b, sh, done, c);
      && (c.Raising? ==> r.shared.flags.errors != [])
      && (r.shared.flags.stop && !sh.flags.stop ==> r.consumer.Raising? || r.shared.flags.errors != [])
      && r.shared.board.submitted == sh.board.submitted
  {
  }

  /** Work in hand is settled or stays in hand, unless the consumer failed or found the stop flag. */
  lemma ConsumerKeepsWork(b: Build, sh: Shared, done: bool, c: Consumer, job: Job)
    requires ConsumerServes(c, job)
    ensures var r := ConsumerStep(b, sh, done, c);
      Settled(r.shared.board, job) || ConsumerServes(r.consumer, job) || r.consumer.Raising? || sh.flags.stop
  {
  }

  lemma ConsumerKeepsQueue(b: Build, sh: Shared, done: bool, c: Consumer, job: Job)
    requires QueueServes(sh.queue, job)
    ensures var r := ConsumerStep(b, sh, done, c); QueueServes(r.shared.queue, job) || ConsumerServes(r.consumer, job)
  {
    if c.Idle? {
      assert sh.queue == [sh.queue[0]] + sh.queue[1..];
      QueueSplit([sh.queue[0]], sh.queue[1..], job);
    }
  }
}
