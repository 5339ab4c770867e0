/** The bound on the discovery queue, and what a failing discovery raises. */
module DiscoverFacts {
  import opened Discover
  import Collections

  lemma StepOf(d: Discovery, run: seq<State>, i: nat) returns (step: Action)
    requires IsRun(d, run) && i + 1 < |run|
    ensures Enabled(run[i], step) && run[i + 1] == Do(d, run[i], step)
  {
    assert StepAt(d, run, i);
    step :| Enabled(run[i], step) && run[i + 1] == Do(d, run[i], step);
  }

  /** However many files there are, the queue never holds more than its capacity. */
  lemma {:induction false} QueueIsBounded(d: Discovery, run: seq<State>, i: nat)
    requires IsRun(d, run) && i < |run|
    ensures |run[i].shared.queue| <= d.capacity
  {
    if i > 0 {
      QueueIsBounded(d, run, i - 1);
      var step := StepOf(d, run, i - 1);
      StepBounded(d, run[i - 1], step);
    }
  }

  lemma StepBounded(d: Discovery, s: State, step: Action)
    requires Enabled(s, step) && |s.shared.queue| <= d.capacity
    ensures |Do(d, s, step).shared.queue| <= d.capacity
  {
  }

  // -- Failing ------------------------------------------------------------------------------------------

  /** The failure that is recorded, or else every one on its way to be, is `e`. */
  ghost predicate Blames(s: State, e: Failure) {
    && (s.shared.errors == [e] || (s.shared.errors == []
        && (s.main.FeedFailing? ==> e == Cancelled)
        && (forall i :: 0 <= i < |s.readers| && s.readers[i].Raising? ==> s.readers[i].error == e)))
    && (s.main.Raised? ==> s.main.error == e)
  }

  /** Without cancellation the stop flag comes after a recorded failure, or after the join. */
  ghost predicate StopsAfter(s: State, e: Failure) {
    && !s.shared.cancel && (s.shared.stop && !AfterJoin(s.main) ==> s.shared.errors == [e])
    && (s.main.FeedHalting? ==> s.shared.errors == [e])
    && (forall i :: 0 <= i < |s.readers| && s.readers[i].Halting? ==> s.shared.errors == [e])
  }

  lemma UncancelledStep(d: Discovery, s: State, step: Action)
    requires Enabled(s, step) && !Do(d, s, step).shared.cancel && Inv(d, s)
    requires Blames(s, ReadFailed) && StopsAfter(s, ReadFailed)
    ensures Blames(Do(d, s, step), ReadFailed) && StopsAfter(Do(d, s, step), ReadFailed)
  {
    match step
    case Read(i) => UncancelledRead(d, s, i);
    case _ =>
  }

  lemma UncancelledRead(d: Discovery, s: State, i: nat)
    requires i < |s.readers| && !s.shared.cancel && Inv(d, s) && Blames(s, ReadFailed) && StopsAfter(s, ReadFailed)
    ensures var t := WithReader(s, i, ReaderStep(d, s.shared, s.readers[i]));
      Blames(t, ReadFailed) && StopsAfter(t, ReadFailed)
  {
    if AfterJoin(s.main) {
      Counted(s, i);
    }
  }

  /** After the join no reader has anything in hand. */
  lemma Counted(s: State, i: nat)
    requires i < |s.readers| && s.shared.unfinished == |s.shared.queue| + Collections.Count(Holding, s.readers)
    requires s.shared.unfinished == 0
    ensures !Holding(s.readers[i])
  {
    Collections.CountZero(Holding, s.readers);
  }

  /** An uncancelled discovery raises only the failure of a read. */
  lemma {:induction false} UncancelledRaisesReadFailure(d: Discovery, run: seq<State>, i: nat)
    requires IsRun(d, run) && i < |run| && !run[i].shared.cancel
    ensures Blames(run[i], ReadFailed) && StopsAfter(run[i], ReadFailed)
  {
    if i > 0 {
      var step := StepOf(d, run, i - 1);
      assert !run[i - 1].shared.cancel;
      UncancelledRaisesReadFailure(d, run, i - 1);
      RunInv(d, run, i - 1);
      UncancelledStep(d, run[i - 1], step);
    }
  }

  ghost predicate FaultlessAt(d: Discovery, run: seq<State>, i: nat) {
    i + 1 < |run| && exists step :: Enabled(run[i], step) && !step.ReadFault? && run[i + 1] == Do(d, run[i], step)
  }

  /** Readers only take what was fed. */
  ghost predicate OnlyAdmitted(d: Discovery, s: State) {
    && (forall i :: 0 <= i < |s.shared.queue| && s.shared.queue[i].Path? ==> s.shared.queue[i].path in d.admitted)
    && (forall i, p :: 0 <= i < |s.readers| && InHand(s.readers[i], p) ==> p in d.admitted)
  }

  lemma StepAdmitted(d: Discovery, s: State, step: Action)
    requires Enabled(s, step) && OnlyAdmitted(d, s)
    ensures OnlyAdmitted(d, Do(d, s, step))
  {
    match step
    case Read(i) => ReadAdmitted(d, s, i);
    case ReadFault(i) =>
    case Cancel =>
    case Move =>
  }

  lemma ReadAdmitted(d: Discovery, s: State, i: nat)
    requires i < |s.readers| && OnlyAdmitted(d, s)
    ensures OnlyAdmitted(d, WithReader(s, i, ReaderStep(d, s.shared, s.readers[i])))
  {
    assert forall p :: InHand(s.readers[i], p) ==> p in d.admitted;
  }

  lemma {:induction false} RunAdmitted(d: Discovery, run: seq<State>, i: nat)
    requires IsRun(d, run) && i < |run|
    ensures OnlyAdmitted(d, run[i])
  {
    if i > 0 {
      RunAdmitted(d, run, i - 1);
      var step := StepOf(d, run, i - 1);
      StepAdmitted(d, run[i - 1], step);
    }
  }

  lemma FaultlessStep(d: Discovery, s: State, step: Action)
    requires Enabled(s, step) && !step.ReadFault? && Blames(s, Cancelled) && OnlyAdmitted(d, s)
    requires forall p :: p in d.admitted ==> d.read(p).Some?
    ensures Blames(Do(d, s, step), Cancelled)
  {
    if step.Read? && s.readers[step.i].Reading? {
      assert InHand(s.readers[step.i], s.readers[step.i].path);
    }
  }

  /** When every admitted file can be read and no read fails, only cancellation is raised. */
  lemma {:induction false} FaultlessRaisesCancellation(d: Discovery, run: seq<State>, i: nat)
    requires IsRun(d, run) && i < |run| && forall j: nat :: j < i ==> FaultlessAt(d, run, j)
    requires forall p :: p in d.admitted ==> d.read(p).Some?
    ensures Blames(run[i], Cancelled)
  {
    if i > 0 {
      FaultlessRaisesCancellation(d, run, i - 1);
      assert FaultlessAt(d, run, i - 1);
      var step :| Enabled(run[i - 1], step) && !step.ReadFault? && run[i] == Do(d, run[i - 1], step);
      RunAdmitted(d, run, i - 1);
      FaultlessStep(d, run[i - 1], step);
    }
  }

  // -- The first failure --------------------------------------------------------------------------------

  lemma RecordedStays(d: Discovery, s: State, step: Action)
    requires Enabled(s, step) && s.shared.errors != []
    ensures Do(d, s, step).shared.errors == s.shared.errors
  {
  }

  lemma {:induction false} RaisedIsRecorded(d: Discovery, run: seq<State>, j: nat)
    requires IsRun(d, run) && j < |run|
    ensures run[j].main.Raised? ==> run[j].shared.errors != [] && run[j].main.error == run[j].shared.errors[0]
  {
    if j > 0 {
      RaisedIsRecorded(d, run, j - 1);
      var step := StepOf(d, run, j - 1);
      if run[j - 1].shared.errors != [] {
        RecordedStays(d, run[j - 1], step);
      }
    }
  }

  /** The first recorded failure is the one that is raised, and the discovery does not return normally after it. */
  lemma {:induction false} FirstFailureIsRaised(d: Discovery, run: seq<State>, i: nat, j: nat)
    requires IsRun(d, run) && i <= j < |run| && run[i].shared.errors != []
    ensures run[j].shared.errors == run[i].shared.errors
    ensures run[j].main.Raised? ==> run[j].main.error == run[i].shared.errors[0]
    ensures !run[j].main.Returned?
    decreases j
  {
    RunInv(d, run, j);
    if i < j {
      FirstFailureIsRaised(d, run, i, j - 1);
      var step := StepOf(d, run, j - 1);
      RecordedStays(d, run[j - 1], step);
    }
    RaisedIsRecorded(d, run, j);
  }

  // -- Cancelling ---------------------------------------------------------------------------------------

  /** After a cancellation no reader starts to read a file, keeps one it was reading, or is fed another. */
  lemma NothingStartsAfterCancel(d: Discovery, run: seq<State>, i: nat)
    requires IsRun(d, run) && i + 1 < |run| && run[i].shared.cancel
    ensures run[i + 1].shared.cancel && |run[i + 1].readers| == |run[i].readers|
    ensures forall r ::
      0 <= r < |run[i].readers| && (run[i + 1].readers[r].Reading? || run[i + 1].readers[r].Storing?) ==>
      run[i].readers[r] == run[i + 1].readers[r]
    ensures run[i + 1].main.Feeding? && run[i + 1].main.armed ==> run[i].main == run[i + 1].main
  {
    var step := StepOf(d, run, i);
    StepAfterCancel(d, run[i], step);
  }

  lemma StepAfterCancel(d: Discovery, s: State, step: Action)
    requires Enabled(s, step) && s.shared.cancel
    ensures var t := Do(d, s, step);
      && t.shared.cancel && |t.readers| == |s.readers|
      && (forall r :: 0 <= r < |s.readers| && (t.readers[r].Reading? || t.readers[r].Storing?) ==>
            s.readers[r] == t.readers[r])
      && (t.main.Feeding? && t.main.armed ==> s.main == t.main)
  {
  }
}
