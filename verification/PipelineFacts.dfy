/** What the queue of a concurrent build holds, what is sent through it, and what a failing build raises. */
module PipelineFacts {
  import opened PipelineMachine
  import opened PipelineInvariant
  import opened PipelineResults

  lemma StepOf(b: Build, run: seq<State>, i: nat) returns (step: Action)
    requires IsRun(b, run) && i + 1 < |run|
    ensures Enabled(b, run[i], step) && run[i + 1] == Do(b, run[i], step)
  {
    assert StepAt(b, run, i);
    step :| Enabled(b, run[i], step) && run[i + 1] == Do(b, run[i], step);
  }

  // -- The queue ------------------------------------------------------------------------------------------

  /** An item that one kernel call can take: a batch has one to eight tokens. */
  predicate FitsCall(item: Item) {
    item.TokVal? ==> 0 < |item.toks| <= 8
  }

  predicate OpFits(op: Op) {
    op.Put? ==> FitsCall(op.item)
  }

  ghost predicate QueueFits(b: Build, s: State) {
    && |s.shared.queue| <= b.capacity && (forall i :: 0 <= i < |s.shared.queue| ==> FitsCall(s.shared.queue[i]))
    && (forall p :: 0 <= p < |s.producers| ==> s.producers[p].Working? ==>
          forall k :: 0 <= k < |s.producers[p].todo| ==> OpFits(s.producers[p].todo[k]))
  }

  /** Batches lose no token, add none and fit a call. */
  lemma {:induction false} BatchesFit(toks: seq<seq<char>>)
    ensures forall k :: 0 <= k < |Batches(toks)| ==>
      Batches(toks)[k].Put? && Batches(toks)[k].item.TokVal? && OpFits(Batches(toks)[k])
    decreases |toks|
  {
    if |toks| > BATCH {
      BatchesFit(toks[BATCH..]);
    }
  }

  lemma {:induction false} LeafPutsFit(f: nat, from: nat, windows: nat)
    ensures forall k :: 0 <= k < |LeafPuts(f, from, windows)| ==> OpFits(LeafPuts(f, from, windows)[k])
    ensures forall k :: 0 <= k < |LeafPuts(f, from, windows)| ==> LeafPuts(f, from, windows)[k] != Begin
    ensures forall k :: 0 <= k < |LeafPuts(f, from, windows)| ==> !Sending(LeafPuts(f, from, windows)[k])
    decreases windows - from
  {
    if from < windows {
      LeafPutsFit(f, from + 1, windows);
    }
  }

  lemma {:induction false} ProgramFits(plans: seq<Plan>, f: nat, n: nat)
    requires n > 0
    ensures forall k :: 0 <= k < |ChunkProgram(plans, f, n)| ==>
      OpFits(ChunkProgram(plans, f, n)[k]) && !Sending(ChunkProgram(plans, f, n)[k])
    decreases |plans| - f
  {
    if f < |plans| {
      LeafPutsFit(f, 0, |plans[f].windows|);
      ProgramFits(plans, f + n, n);
    }
  }

  lemma ProducerFits(b: Build, sh: Shared, p: Producer)
    requires |sh.queue| <= b.capacity && (forall i :: 0 <= i < |sh.queue| ==> FitsCall(sh.queue[i]))
    requires p.Working? ==> forall k :: 0 <= k < |p.todo| ==> OpFits(p.todo[k])
    ensures var r := ProducerStep(b, sh, p);
      && |r.shared.queue| <= b.capacity && (forall i :: 0 <= i < |r.shared.queue| ==> FitsCall(r.shared.queue[i]))
      && (r.producer.Working? ==> forall k :: 0 <= k < |r.producer.todo| ==> OpFits(r.producer.todo[k]))
  {
    if p.Working? && p.todo != [] && p.todo[0].ScanTokens? {
      BatchesFit(Uncached(TokensOf(b.plans, p.todo[0].file), sh.board.valid));
    }
  }

  lemma ConsumerTakes(b: Build, sh: Shared, done: bool, c: Consumer)
    ensures var q := ConsumerStep(b, sh, done, c).shared.queue; q == sh.queue || (sh.queue != [] && q == sh.queue[1..])
  {
  }

  lemma StepFits(b: Build, s: State, step: Action)
    requires Enabled(b, s, step) && QueueFits(b, s)
    ensures QueueFits(b, Do(b, s, step))
  {
    match step
    case Produce(i) => ProducerFits(b, s.shared, s.producers[i]);
    case Consume(i) => ConsumerTakes(b, s.shared, s.producersDone, s.consumers[i]);
    case _ =>
  }

  /** The queue never holds more than its capacity, and every batch in it fits one kernel call. */
  lemma {:induction false} QueueIsBounded(b: Build, run: seq<State>, i: nat)
    requires IsRun(b, run) && i < |run|
    ensures QueueFits(b, run[i])
  {
    if i == 0 {
      forall p | 0 <= p < b.producers { ProgramFits(b.plans, p, b.producers); }
    } else {
      QueueIsBounded(b, run, i - 1);
      var step := StepOf(b, run, i - 1);
      StepFits(b, run[i - 1], step);
    }
  }

  // -- Sending digests --------------------------------------------------------------------------------------

  predicate Sending(op: Op) {
    op.Put? && op.item.TokDig?
  }

  /** Producer `p` claims a token and is about to send it for digesting. */
  predicate Sends(s: State, t: State, p: nat, tok: seq<char>) {
    && p < |s.producers| && p < |t.producers| && s.producers[p].Working? && t.producers[p].Working?
    && s.producers[p].todo != [] && s.producers[p].todo[0] == ClaimDigest(tok)
    && t.producers[p].todo != [] && t.producers[p].todo[0] == Put(TokDig(tok))
  }

  /** Only what was just claimed is waiting to be sent. */
  ghost predicate SendsFirst(s: State) {
    forall p, k :: 0 <= p < |s.producers| && s.producers[p].Working? && 0 < k < |s.producers[p].todo| ==>
      !Sending(s.producers[p].todo[k])
  }

  ghost predicate RestQuiet(p: Producer) {
    p.Working? ==> forall k :: 0 < k < |p.todo| ==> !Sending(p.todo[k])
  }

  lemma ProducerQuiet(b: Build, sh: Shared, p: Producer)
    requires RestQuiet(p)
    ensures RestQuiet(ProducerStep(b, sh, p).producer)
  {
    if p.Working? && p.todo != [] && p.todo[0].ScanTokens? {
      BatchesFit(Uncached(TokensOf(b.plans, p.todo[0].file), sh.board.valid));
    }
  }

  lemma {:induction false} RunQuiet(b: Build, run: seq<State>, i: nat)
    requires IsRun(b, run) && i < |run|
    ensures SendsFirst(run[i])
  {
    if i == 0 {
      forall p | 0 <= p < b.producers { ProgramFits(b.plans, p, b.producers); }
    } else {
      RunQuiet(b, run, i - 1);
      var s := run[i - 1];
      var step := StepOf(b, run, i - 1);
      forall p | 0 <= p < |run[i].producers| ensures RestQuiet(run[i].producers[p]) {
        assert RestQuiet(s.producers[p]);
        if step == Produce(p) {
          ProducerQuiet(b, s.shared, s.producers[p]);
        }
      }
    }
  }

  /** A token is sent when it had not been submitted, and is submitted from then on. */
  lemma SendSubmits(b: Build, run: seq<State>, i: nat, p: nat, tok: seq<char>)
    requires IsRun(b, run) && i + 1 < |run| && Sends(run[i], run[i + 1], p, tok)
    ensures tok !in run[i].shared.board.submitted && tok in run[i + 1].shared.board.submitted
    ensures |run[i + 1].producers| == |run[i].producers|
    ensures forall q :: 0 <= q < |run[i].producers| && q != p ==> run[i + 1].producers[q] == run[i].producers[q]
  {
    RunQuiet(b, run, i);
    var step := StepOf(b, run, i);
    assert step == Produce(p);
  }

  lemma {:induction false} SubmittedStays(b: Build, run: seq<State>, i: nat, j: nat, tok: seq<char>)
    requires IsRun(b, run) && i <= j < |run| && tok in run[i].shared.board.submitted
    ensures tok in run[j].shared.board.submitted
    decreases j
  {
    if i < j {
      SubmittedStays(b, run, i, j - 1, tok);
      var step := StepOf(b, run, j - 1);
      SubmittedGrows(b, run[j - 1], step);
    }
  }

  lemma SubmittedGrows(b: Build, s: State, step: Action)
    requires Enabled(b, s, step)
    ensures s.shared.board.submitted <= Do(b, s, step).shared.board.submitted
  {
  }

  /** However many files and producers share a token, it is sent for digesting at most once in a build. */
  lemma DigestedOnce(b: Build, run: seq<State>, i: nat, p: nat, j: nat, q: nat, tok: seq<char>)
    requires IsRun(b, run) && i + 1 < |run| && j + 1 < |run|
    requires Sends(run[i], run[i + 1], p, tok) && Sends(run[j], run[j + 1], q, tok)
    ensures i == j && p == q
  {
    SendSubmits(b, run, i, p, tok);
    SendSubmits(b, run, j, q, tok);
    if i < j {
      SubmittedStays(b, run, i + 1, j, tok);
    } else if j < i {
      SubmittedStays(b, run, j + 1, i, tok);
    }
  }

  /** Every digest of the build is in the session memo. */
  ghost predicate Remembers(s: State) {
    && (forall t :: t in s.shared.board.tokDigests ==> InMemo(s.shared, t, s.shared.board.tokDigests[t]))
    && (forall c :: 0 <= c < |s.consumers| && s.consumers[c].Storing? ==>
          InMemo(s.shared, s.consumers[c].tok, s.consumers[c].digest))
  }

  lemma RemembersStep(b: Build, s: State, step: Action)
    requires Enabled(b, s, step) && Remembers(s) && BoardOk(b, s.shared.board)
    ensures Remembers(Do(b, s, step))
  {
    match step
    case Produce(i) => ProducerRemembers(b, s.shared, s.producers[i]);
    case Consume(i) => ConsumerRemembers(b, s.shared, s.producersDone, s.consumers[i]);
    case _ =>
  }

  ghost predicate InMemo(sh: Shared, t: seq<char>, digest: int) {
    t in sh.board.memo && sh.board.memo[t] == digest
  }

  lemma ProducerRemembers(b: Build, sh: Shared, p: Producer)
    requires forall t :: t in sh.board.tokDigests ==> InMemo(sh, t, sh.board.tokDigests[t])
    ensures var r := ProducerStep(b, sh, p).shared;
      r.board.memo == sh.board.memo && forall t :: t in r.board.tokDigests ==> InMemo(r, t, r.board.tokDigests[t])
  {
  }

  lemma ConsumerRemembers(b: Build, sh: Shared, done: bool, c: Consumer)
    requires BoardOk(b, sh.board) && (c.Storing? ==> InMemo(sh, c.tok, c.digest))
    requires forall t :: t in sh.board.tokDigests ==> InMemo(sh, t, sh.board.tokDigests[t])
    ensures var r := ConsumerStep(b, sh, done, c);
      && (forall t, digest :: InMemo(sh, t, digest) ==> InMemo(r.shared, t, digest))
      && (r.consumer.Storing? ==> InMemo(r.shared, r.consumer.tok, r.consumer.digest))
      && forall t :: t in r.shared.board.tokDigests ==> InMemo(r.shared, t, r.shared.board.tokDigests[t])
  {
  }

  /** What a build digests it leaves to later builds of the session. */
  lemma {:induction false} DigestsAreRemembered(b: Build, run: seq<State>, i: nat)
    requires IsRun(b, run) && i < |run|
    ensures Remembers(run[i])
  {
    if i > 0 {
      DigestsAreRemembered(b, run, i - 1);
      RunInv(b, run, i - 1);
      var step := StepOf(b, run, i - 1);
      RemembersStep(b, run[i - 1], step);
    }
  }

  // -- Failing ------------------------------------------------------------------------------------------------

  /** The failure that is recorded, or else every one on its way to be, is `e`. */
  ghost predicate Blames(s: State, e: Failure) {
    && (s.shared.flags.errors == [e] || (s.shared.flags.errors == []
        && (forall i :: 0 <= i < |s.producers| && s.producers[i].Throwing? ==> s.producers[i].error == e)
        && (forall i :: 0 <= i < |s.consumers| && s.consumers[i].Raising? ==> s.consumers[i].error == e)))
    && (s.main.Raised? ==> s.main.error == e)
  }

  /** Without cancellation the stop flag comes after a recorded failure. */
  ghost predicate StopsAfter(s: State, e: Failure) {
    && !s.shared.flags.cancel && (s.shared.flags.stop ==> s.shared.flags.errors == [e])
    && (forall i :: 0 <= i < |s.producers| && s.producers[i].Stopping? ==> s.shared.flags.errors == [e])
    && (forall i :: 0 <= i < |s.consumers| && s.consumers[i].Halting? ==> s.shared.flags.errors == [e])
  }

  lemma UncancelledStep(b: Build, s: State, step: Action)
    requires Enabled(b, s, step) && !Do(b, s, step).shared.flags.cancel
    requires Blames(s, Failed) && StopsAfter(s, Failed)
    ensures Blames(Do(b, s, step), Failed) && StopsAfter(Do(b, s, step), Failed)
  {
  }

  /** An uncancelled build raises only the failure of a thread. */
  lemma {:induction false} UncancelledRaisesFaults(b: Build, run: seq<State>, i: nat)
    requires IsRun(b, run) && i < |run| && !run[i].shared.flags.cancel
    ensures Blames(run[i], Failed) && StopsAfter(run[i], Failed)
  {
    if i > 0 {
      var step := StepOf(b, run, i - 1);
      assert !run[i - 1].shared.flags.cancel;
      UncancelledRaisesFaults(b, run, i - 1);
      UncancelledStep(b, run[i - 1], step);
    }
  }

  predicate Fault(step: Action) {
    step.ProducerFault? || step.ConsumerFault?
  }

  ghost predicate FaultlessAt(b: Build, run: seq<State>, i: nat) {
    i + 1 < |run| && exists step :: Enabled(b, run[i], step) && !Fault(step) && run[i + 1] == Do(b, run[i], step)
  }

  lemma FaultlessStep(b: Build, s: State, step: Action)
    requires Enabled(b, s, step) && !Fault(step) && Blames(s, Cancelled)
    ensures Blames(Do(b, s, step), Cancelled)
  {
  }

  /** A build without faults raises only cancellation. */
  lemma {:induction false} FaultlessRaisesCancellation(b: Build, run: seq<State>, i: nat)
    requires IsRun(b, run) && i < |run| && forall j: nat :: j < i ==> FaultlessAt(b, run, j)
    ensures Blames(run[i], Cancelled)
  {
    if i > 0 {
      FaultlessRaisesCancellation(b, run, i - 1);
      assert FaultlessAt(b, run, i - 1);
      var step :| Enabled(b, run[i - 1], step) && !Fault(step) && run[i] == Do(b, run[i - 1], step);
      FaultlessStep(b, run[i - 1], step);
    }
  }

  lemma RecordedStays(b: Build, s: State, step: Action)
    requires Enabled(b, s, step) && s.shared.flags.errors != []
    ensures Do(b, s, step).shared.flags.errors == s.shared.flags.errors
  {
  }

  /** The first recorded failure is the one that is raised, and only when every thread is gone. */
  lemma {:induction false} FirstFailureIsRaised(b: Build, run: seq<State>, i: nat, j: nat)
    requires IsRun(b, run) && i <= j < |run| && run[i].shared.flags.errors != []
    ensures run[j].shared.flags.errors == run[i].shared.flags.errors
    ensures run[j].main.Raised? ==> run[j].main.error == run[i].shared.flags.errors[0]
    ensures !run[j].main.Assembling?
    ensures run[j].main.Raised? ==>
      && (forall p :: 0 <= p < |run[j].producers| ==> run[j].producers[p].Finished?)
      && (forall c :: 0 <= c < |run[j].consumers| ==> run[j].consumers[c].Exited?)
    decreases j
  {
    RunInv(b, run, j);
    if i < j {
      FirstFailureIsRaised(b, run, i, j - 1);
      var step := StepOf(b, run, j - 1);
      RecordedStays(b, run[j - 1], step);
    } else {
      RaisedIsRecorded(b, run, j);
    }
  }

  lemma {:induction false} RaisedIsRecorded(b: Build, run: seq<State>, j: nat)
    requires IsRun(b, run) && j < |run|
    ensures run[j].main.Raised? ==>
      run[j].shared.flags.errors != [] && run[j].main.error == run[j].shared.flags.errors[0]
  {
    if j > 0 {
      RaisedIsRecorded(b, run, j - 1);
      var step := StepOf(b, run, j - 1);
      if run[j - 1].shared.flags.errors != [] {
        RecordedStays(b, run[j - 1], step);
      }
    }
  }

  // -- Cancelling ---------------------------------------------------------------------------------------------

  /** After a cancellation no consumer starts a kernel call and no producer passes its check. */
  lemma NothingStartsAfterCancel(b: Build, run: seq<State>, i: nat)
    requires IsRun(b, run) && i + 1 < |run| && run[i].shared.flags.cancel
    ensures |run[i + 1].consumers| == |run[i].consumers| && |run[i + 1].producers| == |run[i].producers|
    ensures run[i + 1].shared.flags.cancel
    ensures forall c :: 0 <= c < |run[i].consumers| && run[i + 1].consumers[c].Running? ==>
      run[i].consumers[c] == run[i + 1].consumers[c]
    ensures forall p ::
      0 <= p < |run[i].producers| && run[i + 1].producers[p].Working? && run[i + 1].producers[p].armed ==>
      run[i].producers[p] == run[i + 1].producers[p]
  {
    var step := StepOf(b, run, i);
  }

  /** A producer that has not passed its first check. */
  predicate NotBegun(p: Producer) {
    p.Working? && p.todo != [] && p.todo[0] == Begin
  }

  /** Cancelled, and the first producer has not begun, or a failure is on its way or recorded. */
  ghost predicate Hopeless(s: State) {
    && s.shared.flags.cancel && |s.producers| > 0 && !s.main.Assembling?
    && (s.shared.flags.errors != []
        || (s.main == Collecting(0) && (NotBegun(s.producers[0]) || s.producers[0].Throwing?)))
  }

  lemma StaysHopeless(b: Build, s: State, step: Action)
    requires Enabled(b, s, step) && Hopeless(s)
    ensures Hopeless(Do(b, s, step))
  {
  }

  /** A build with a file to process that is cancelled from the start never returns normally. */
  lemma {:induction false} CancelledBuildFails(b: Build, run: seq<State>, i: nat)
    requires IsRun(b, run) && i < |run| && run[0].shared.flags.cancel && b.plans != []
    ensures Hopeless(run[i])
  {
    if i > 0 {
      CancelledBuildFails(b, run, i - 1);
      var step := StepOf(b, run, i - 1);
      StaysHopeless(b, run[i - 1], step);
    }
  }
}
