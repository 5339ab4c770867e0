/** The concurrent build as a step system: producers and consumers around one bounded queue.

  Every lock region, queue operation and flag access of the pipeline is one step; any interleaving of
  producers, consumers, the main thread, cancellation and other users of the kernel memo is a run.
 */
module PipelineMachine {
  import opened Digest
  import opened FileBuild

  // -- Work ------------------------------------------------------------------------------------

  datatype Plan = Plan(file: File, windows: seq<Bytes>, tokens: seq<Bytes>)

  datatype Item = Leaf(file: nat, window: nat) | TokVal(toks: seq<Bytes>) | TokDig(tok: Bytes)

  /** What a producer still has to do, in order. */
  datatype Op = Begin | Put(item: Item) | ScanTokens(file: nat) | ClaimDigest(tok: Bytes)

  datatype Failure = Cancelled | Failed

  /** A build: any queue size and any number of threads, at least one each. */
  datatype Build = Build(k: Kernels, plans: seq<Plan>, capacity: nat, producers: nat, consumers: nat)

  predicate ValidBuild(b: Build) {
    b.capacity > 0 && b.producers > 0 && b.consumers > 0
  }

  function LeafPuts(f: nat, from: nat, windows: nat): seq<Op>
    decreases windows - from
  {
    if from >= windows then [] else [Put(Leaf(f, from))] + LeafPuts(f, from + 1, windows)
  }

  function Claims(toks: seq<Bytes>): seq<Op> {
    seq(|toks|, i requires 0 <= i < |toks| => ClaimDigest(toks[i]))
  }

  /** `produce(plan)`: leaves, then unvalidated tokens in batches, then unclaimed digests. */
  function Program(plans: seq<Plan>, f: nat): seq<Op>
    requires f < |plans|
  {
    [Begin] + LeafPuts(f, 0, |plans[f].windows|) + [ScanTokens(f)] + Claims(plans[f].tokens)
  }

  /** The program of one producer: plans `f`, `f + n`, `f + 2n`, ... */
  function ChunkProgram(plans: seq<Plan>, f: nat, n: nat): seq<Op>
    requires n > 0
    decreases |plans| - f
  {
    if f >= |plans| then [] else Program(plans, f) + ChunkProgram(plans, f + n, n)
  }

  const BATCH := 8

  function Batches(toks: seq<Bytes>): seq<Op>
    decreases |toks|
  {
    if toks == [] then []
    else if |toks| <= BATCH then [Put(TokVal(toks))]
    else [Put(TokVal(toks[..BATCH]))] + Batches(toks[BATCH..])
  }

  function Uncached(toks: seq<Bytes>, valid: map<Bytes, bool>): seq<Bytes> {
    if toks == [] then []
    else (if toks[0] in valid then [] else [toks[0]]) + Uncached(toks[1..], valid)
  }

  function TokensOf(plans: seq<Plan>, f: nat): seq<Bytes> {
    if f < |plans| then plans[f].tokens else []
  }

  function ChunkOf(plans: seq<Plan>, f: nat, w: nat): Bytes {
    if f < |plans| && w < |plans[f].windows| then plans[f].windows[w] else []
  }

  // -- Threads ---------------------------------------------------------------------------------

  /** `armed`: the cancellation check before the next `put` has passed. */
  datatype Producer =
    | Working(todo: seq<Op>, armed: bool)
    | Throwing(error: Failure)
    | Stopping
    | Finished

  datatype Consumer =
    | Idle
    | TimedOut
    | Taken(item: Item)
    | Checking(item: Item)
    | Running(item: Item)
    | Storing(tok: Bytes, digest: int)
    | Raising(error: Failure)
    | Halting
    | Settling
    | Exited

  /** The main thread: collect producers, join the queue, reap consumers, then assemble or raise. */
  datatype Main = Collecting(next: nat) | Joining | Reaping(next: nat) | Assembling | Raised(error: Failure)

  /** The tables: per build leaves, digests and submissions; per session token validity and digests. */
  datatype Board = Board(leaves: map<(nat, nat), WinDigest>, tokDigests: map<Bytes, int>, submitted: set<Bytes>,
                         valid: map<Bytes, bool>, memo: map<Bytes, int>)

  datatype Flags = Flags(stop: bool, cancel: bool, errors: seq<Failure>)

  /** Everything the threads share. */
  datatype Shared = Shared(queue: seq<Item>, unfinished: int, board: Board, flags: Flags)

  datatype State = State(
    shared: Shared, producersDone: bool, producers: seq<Producer>, consumers: seq<Consumer>, main: Main)

  /** Entries already in the session memo when the build starts are correct. */
  ghost predicate MemoOk(k: Kernels, board: Board) {
    && (forall t :: t in board.valid ==> board.valid[t] == ValidToken(t))
    && (forall t :: t in board.memo ==> board.memo[t] == TokenDigest(k, t))
  }

  ghost predicate Init(b: Build, s: State) {
    && ValidBuild(b) && MemoOk(b.k, s.shared.board)
    && s.shared.queue == [] && s.shared.unfinished == 0
    && s.shared.board.leaves == map[] && s.shared.board.tokDigests == map[] && s.shared.board.submitted == {}
    && !s.shared.flags.stop && s.shared.flags.errors == []
    && !s.producersDone && s.main == Collecting(0)
    && |s.producers| == b.producers && |s.consumers| == b.consumers
    && (forall i :: 0 <= i < b.producers ==> s.producers[i] == Working(ChunkProgram(b.plans, i, b.producers), false))
    && (forall i :: 0 <= i < b.consumers ==> s.consumers[i] == Idle)
  }

  // -- Steps of one thread -----------------------------------------------------------------------

  datatype Produced = Produced(shared: Shared, producer: Producer)

  datatype Consumed = Consumed(shared: Shared, consumer: Consumer)

  /** `_fail`: the first exception is kept. */
  function Record(sh: Shared, e: Failure): Shared {
    if sh.flags.errors == [] then sh.(flags := sh.flags.(errors := [e])) else sh
  }

  function Halt(sh: Shared): Shared {
    sh.(flags := sh.flags.(stop := true))
  }

  function ProducerStep(b: Build, sh: Shared, p: Producer): Produced {
    match p
    case Working(todo, armed) =>
      if todo == [] then Produced(sh, Finished)
      else match todo[0] {
        case Begin => if sh.flags.stop || sh.flags.cancel then Thrown(sh) else Produced(sh, Working(todo[1..], false))
        case Put(item) => PutItem(b, sh, todo, armed, item)
        case ScanTokens(f) =>
          Produced(sh, Working(Batches(Uncached(TokensOf(b.plans, f), sh.board.valid)) + todo[1..], false))
        case ClaimDigest(tok) => Claim(sh, todo, tok)
      }
    case Throwing(e) => Produced(Record(sh, e), Stopping)
    case Stopping => Produced(Halt(sh), Finished)
    case Finished => Produced(sh, Finished)
  }

  /** `_check_cancel` raising: the stop flag is set before the exception leaves. */
  function Thrown(sh: Shared): Produced {
    Produced(Halt(sh), Throwing(Cancelled))
  }

  /** `_put`: check, then try; on a full queue check again. */
  function PutItem(b: Build, sh: Shared, todo: seq<Op>, armed: bool, item: Item): Produced
    requires todo != []
  {
    if !armed then
      if sh.flags.stop || sh.flags.cancel then Thrown(sh) else Produced(sh, Working(todo, true))
    else if |sh.queue| < b.capacity then
      Produced(sh.(queue := sh.queue + [item], unfinished := sh.unfinished + 1), Working(todo[1..], false))
    else Produced(sh, Working(todo, false))
  }

  /** Under the state lock: skip a known or submitted token, take a memoised digest, or claim it. */
  function Claim(sh: Shared, todo: seq<Op>, tok: Bytes): Produced
    requires todo != []
  {
    if tok in sh.board.tokDigests || tok in sh.board.submitted then Produced(sh, Working(todo[1..], false))
    else if tok in sh.board.memo then
      Produced(sh.(board := sh.board.(tokDigests := sh.board.tokDigests[tok := sh.board.memo[tok]])),
          Working(todo[1..], false))
    else
      Produced(sh.(board := sh.board.(submitted := sh.board.submitted + {tok})),
          Working([Put(TokDig(tok))] + todo[1..], false))
  }

  function ConsumerStep(b: Build, sh: Shared, done: bool, c: Consumer): Consumed {
    match c
    case Idle =>
      if sh.queue != [] then Consumed(sh.(queue := sh.queue[1..]), Taken(sh.queue[0])) else Consumed(sh, TimedOut)
    case TimedOut => Consumed(sh, if done then Exited else Idle)
    case Taken(item) => Consumed(sh, if sh.flags.stop then Settling else Checking(item))
    case Checking(item) =>
      if sh.flags.stop || sh.flags.cancel then Consumed(Halt(sh), Raising(Cancelled)) else Consumed(sh, Running(item))
    case Running(item) => DoItem(b, sh, item)
    case Storing(tok, digest) =>
      Consumed(sh.(board := sh.board.(tokDigests := sh.board.tokDigests[tok := digest])), Settling)
    case Raising(e) => Consumed(Record(sh, e), Halting)
    case Halting => Consumed(Halt(sh), Settling)
    case Settling => Consumed(sh.(unfinished := sh.unfinished - 1), Idle)
    case Exited => Consumed(sh, Exited)
  }

  /** `_do_item`: one kernel call, its result published under a lock. */
  function DoItem(b: Build, sh: Shared, item: Item): Consumed {
    match item
    case Leaf(f, w) =>
      var leaf := LeafOf(b.k.step, b.k.basis, ChunkOf(b.plans, f, w));
      Consumed(sh.(board := sh.board.(leaves := sh.board.leaves[(f, w) := leaf])), Settling)
    case TokVal(toks) => Consumed(sh.(board := sh.board.(valid := sh.board.valid + Verdicts(toks))), Settling)
    case TokDig(tok) =>
      var digest := if tok in sh.board.memo then sh.board.memo[tok] else TokenDigest(b.k, tok);
      Consumed(sh.(board := sh.board.(memo := sh.board.memo[tok := digest])), Storing(tok, digest))
  }

  /** `validate8` over one batch. */
  function Verdicts(toks: seq<Bytes>): map<Bytes, bool> {
    map t | t in toks :: ValidToken(t)
  }

  // -- Steps of the build ------------------------------------------------------------------------

  datatype Action =
    | Cancel
    | RememberValid(tok: Bytes)
    | RememberDigest(tok: Bytes)
    | Produce(i: nat)
    | ProducerFault(i: nat)
    | Consume(i: nat)
    | ConsumerFault(i: nat)
    | Advance

  predicate CanAdvance(s: State) {
    match s.main
    case Collecting(n) => n >= |s.producers| || s.producers[n].Finished?
    case Joining => s.shared.unfinished == 0
    case Reaping(n) => n >= |s.consumers| || s.consumers[n].Exited?
    case Assembling => false
    case Raised(_) => false
  }

  function DoAdvance(s: State): State {
    match s.main
    case Collecting(n) =>
      if n < |s.producers| then s.(main := Collecting(n + 1)) else s.(producersDone := true, main := Joining)
    case Joining => s.(main := Reaping(0))
    case Reaping(n) =>
      if n < |s.consumers| then s.(main := Reaping(n + 1))
      else if s.shared.flags.errors != [] then s.(main := Raised(s.shared.flags.errors[0]))
      else s.(main := Assembling)
    case Assembling => s
    case Raised(_) => s
  }

  predicate Enabled(b: Build, s: State, step: Action) {
    match step
    case Cancel => true
    case RememberValid(_) => true
    case RememberDigest(_) => true
    case Produce(i) => i < |s.producers|
    case ProducerFault(i) => i < |s.producers| && s.producers[i].Working?
    case Consume(i) => i < |s.consumers|
    case ConsumerFault(i) => i < |s.consumers| && s.consumers[i].Running?
    case Advance => CanAdvance(s)
  }

  /** What other users of the session and the canceller may do. */
  function Environment(b: Build, sh: Shared, step: Action): Shared
    requires step.Cancel? || step.RememberValid? || step.RememberDigest?
  {
    match step
    case Cancel => sh.(flags := sh.flags.(cancel := true))
    case RememberValid(t) => sh.(board := sh.board.(valid := sh.board.valid[t := ValidToken(t)]))
    case RememberDigest(t) => sh.(board := sh.board.(memo := sh.board.memo[t := TokenDigest(b.k, t)]))
  }

  function WithProducer(s: State, i: nat, r: Produced): State
    requires i < |s.producers|
  {
    s.(shared := r.shared, producers := s.producers[i := r.producer])
  }

  function WithConsumer(s: State, i: nat, r: Consumed): State
    requires i < |s.consumers|
  {
    s.(shared := r.shared, consumers := s.consumers[i := r.consumer])
  }

  function Do(b: Build, s: State, step: Action): State
    requires Enabled(b, s, step)
  {
    match step
    case Produce(i) => WithProducer(s, i, ProducerStep(b, s.shared, s.producers[i]))
    case ProducerFault(i) => WithProducer(s, i, Produced(s.shared, Throwing(Failed)))
    case Consume(i) => WithConsumer(s, i, ConsumerStep(b, s.shared, s.producersDone, s.consumers[i]))
    case ConsumerFault(i) => WithConsumer(s, i, Consumed(s.shared, Raising(Failed)))
    case Advance => DoAdvance(s)
    case _ => s.(shared := Environment(b, s.shared, step))
  }

  ghost predicate Next(b: Build, s: State, t: State) {
    exists step :: Enabled(b, s, step) && t == Do(b, s, step)
  }

  ghost predicate StepAt(b: Build, run: seq<State>, i: nat) {
    i + 1 < |run| && Next(b, run[i], run[i + 1])
  }

  ghost predicate IsRun(b: Build, run: seq<State>) {
    && |run| > 0 && Init(b, run[0])
    && forall i: nat :: i + 1 < |run| ==> StepAt(b, run, i)
  }
}
